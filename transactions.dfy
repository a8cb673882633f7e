// The transaction dictionaries the validators and pipelines pass around:
// string keys to JSON-like values.
module Transactions {
  import opened Wrappers
  import opened PyFloat

  /** A dictionary value: a number, text, or Python's None. */
  datatype Value = Num(x: real) | Str(s: string) | Null

  /** A transaction record; a key that is not present differs from a present None. */
  type Txn = map<string, Value>

  const TransactionIdKey := "transaction_id"
  const AccountIdKey := "account_id"
  const AmountKey := "amount"
  const CurrencyKey := "currency"
  const TimestampKey := "timestamp"
  const CustomerIdKey := "customer_id"

  /** `t.get(key)`: None for a key that is not present. */
  function Lookup(t: Txn, key: string): Option<Value>
  {
    if key in t then Some(t[key]) else None
  }

  /** `t.get(key, default)`. */
  function GetOr(t: Txn, key: string, default: Value): Value
  {
    if key in t then t[key] else default
  }

  /** Python truthiness of `t.get(key)`: a missing key and None are false, so are 0 and "". */
  predicate Truthy(v: Option<Value>)
  {
    match v
    case None => false
    case Some(Null) => false
    case Some(Num(x)) => x != 0.0
    case Some(Str(s)) => s != ""
  }

  /**
   * `t.get('amount', 0)` where it is compared with a number: a missing
   * amount is 0, a number is itself, and text or None make the comparison
   * raise TypeError, which is None here.
   */
  function ComparableAmount(t: Txn): Option<real>
  {
    match GetOr(t, AmountKey, Num(0.0))
    case Num(x) => Some(x)
    case _ => None
  }

  /** float(v): a number is itself, text goes through float()'s parser, None raises TypeError. */
  function ToFloat(v: Value): Option<Float>
  {
    match v
    case Num(x) => Some(Finite(x))
    case Str(s) => ParseFloat(s)
    case Null => None
  }

  /** `not (f <= 0)`: every comparison with NaN is false, so NaN passes. */
  predicate NotAtMostZero(f: Float)
  {
    match f
    case Finite(v) => v > 0.0
    case Infinite(negative) => !negative
    case NaN => true
  }

  /** `amt > 0` with a missing amount counted as 0: the count both fallback counters keep. */
  predicate PositiveAmount(t: Txn)
  {
    ComparableAmount(t).Some? && ComparableAmount(t).value > 0.0
  }

  /** The number of records whose amount is positive. */
  function CountPositive(ts: seq<Txn>): (n: nat)
    ensures n <= |ts|
  {
    if ts == [] then 0 else CountPositive(ts[..|ts| - 1]) + (if PositiveAmount(ts[|ts| - 1]) then 1 else 0)
  }
}
