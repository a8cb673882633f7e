// The values a processor sees in a DataFrame row read by pandas.read_csv.
module Cells {
  import opened Wrappers
  import opened PyFloat

  /**
   * A cell: a missing value (NaN, which read_csv also produces for empty
   * fields), text, or a number. `shown` is Python's str() of the number,
   * which the model carries rather than computes.
   */
  datatype Cell = Missing | Text(s: string) | Number(value: real, shown: string)

  /** A row maps column names to cells; indexing a name that is not a column raises KeyError. */
  type Row = map<string, Cell>

  /** Python's str() of the cell's value. */
  function Str(c: Cell): string
  {
    match c
    case Missing => "nan"
    case Text(s) => s
    case Number(_, shown) => shown
  }

  /** pd.isna(x) or x == "" or x is None */
  predicate Absent(c: Cell)
  {
    c.Missing? || c == Text("")
  }

  /** `not x`: the empty string and the number zero are false; NaN is true. */
  predicate Falsy(c: Cell)
  {
    c == Text("") || (c.Number? && c.value == 0.0)
  }

  /** pd.isna(x) or not x */
  predicate NaOrFalsy(c: Cell)
  {
    c.Missing? || Falsy(c)
  }

  /** row.get(name): None when the column is not present. */
  function Get(row: Row, name: string): Option<Cell>
  {
    if name in row then Some(row[name]) else None
  }

  /** Absent input is also NaN-or-falsy, so every check of the second kind rejects it too. */
  lemma AbsentIsNaOrFalsy(c: Cell)
    requires Absent(c)
    ensures NaOrFalsy(c)
  {
  }

  /** float(x) on a cell: NaN stays NaN, a number is itself, text goes through float(str); None where it raises. */
  function FloatOf(c: Cell): (r: Option<Float>)
    ensures c.Number? ==> r == Some(Finite(c.value))
    ensures c.Missing? ==> r == Some(NaN)
  {
    match c
    case Missing => Some(NaN)
    case Text(s) => ParseFloat(s)
    case Number(v, _) => Some(Finite(v))
  }

  // The columns of the bank transactions file.
  const TransactionIdColumn := "TransactionID"
  const CustomerIdColumn := "CustomerID"
  const CustomerDobColumn := "CustomerDOB"
  const GenderColumn := "CustGender"
  const LocationColumn := "CustLocation"
  const BalanceColumn := "CustAccountBalance"
  const TransactionDateColumn := "TransactionDate"
  const TransactionTimeColumn := "TransactionTime"
  const AmountColumn := "TransactionAmount (INR)"
}
