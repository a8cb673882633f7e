// A Python dict from names to counts, as `d[k] = d.get(k, 0) + 1` builds it:
// keys in first-insertion order, every stored count at least 1.
module Counters {
  import opened Wrappers

  datatype Counter<K> = Counter(order: seq<K>, counts: map<K, nat>)

  function Empty<K(!new)>(): Counter<K>
  {
    Counter([], map[])
  }

  predicate Distinct<K(==,!new)>(s: seq<K>)
  {
    forall i, j :: 0 <= i < j < |s| ==> s[i] != s[j]
  }

  /** The keys are the insertion order without repeats, and every count is positive. */
  ghost predicate Valid<K(!new)>(c: Counter<K>)
  {
    Distinct(c.order) && (forall k :: k in c.counts <==> k in c.order)
    && forall k :: k in c.counts ==> c.counts[k] >= 1
  }

  /** `d.get(k, 0)`. */
  function Get<K(==,!new)>(c: Counter<K>, k: K): nat
  {
    if k in c.counts then c.counts[k] else 0
  }

  /** `d[k] = d.get(k, 0) + 1`: a new key goes last, an existing key keeps its place. */
  function Bump<K(==,!new)>(c: Counter<K>, k: K): Counter<K>
  {
    Counter(if k in c.counts then c.order else c.order + [k], c.counts[k := Get(c, k) + 1])
  }

  /** A bump adds one to its own key only, and keeps the counter well formed. */
  lemma BumpSpec<K(!new)>(c: Counter<K>, k: K)
    ensures Valid(c) ==> Valid(Bump(c, k))
    ensures Get(Bump(c, k), k) == Get(c, k) + 1 && forall j :: j != k ==> Get(Bump(c, k), j) == Get(c, j)
  {
  }

  /** n bumps of the same key. */
  function BumpMany<K(==,!new)>(c: Counter<K>, k: K, n: nat): Counter<K>
  {
    if n == 0 then c else Bump(BumpMany(c, k, n - 1), k)
  }

  lemma BumpManyStep<K(!new)>(c: Counter<K>, k: K, n: nat)
    ensures BumpMany(c, k, n + 1) == Bump(BumpMany(c, k, n), k)
  {
  }

  lemma {:induction false} BumpManySpec<K(!new)>(c: Counter<K>, k: K, n: nat)
    ensures Valid(c) ==> Valid(BumpMany(c, k, n))
    ensures Get(BumpMany(c, k, n), k) == Get(c, k) + n && forall j :: j != k ==> Get(BumpMany(c, k, n), j) == Get(c, j)
  {
    if n > 0 {
      BumpManySpec(c, k, n - 1);
      BumpSpec(BumpMany(c, k, n - 1), k);
    }
  }

  /** `sum(d.values())`, over the keys in order. */
  function SumOver<K(==,!new)>(keys: seq<K>, c: Counter<K>): nat
  {
    if keys == [] then 0 else SumOver(keys[..|keys| - 1], c) + Get(c, keys[|keys| - 1])
  }

  function Total<K(==,!new)>(c: Counter<K>): nat
  {
    SumOver(c.order, c)
  }

  /** Changing one count that occurs once among the keys changes the sum by the same amount. */
  lemma {:induction false} SumOverChange<K(!new)>(keys: seq<K>, c: Counter<K>, d: Counter<K>, k: K)
    requires Distinct(keys)
    requires forall j :: j != k ==> Get(d, j) == Get(c, j)
    ensures SumOver(keys, d) == SumOver(keys, c) + (if k in keys then Get(d, k) - Get(c, k) else 0)
  {
    if keys != [] {
      var init := keys[..|keys| - 1];
      assert Distinct(init);
      SumOverChange(init, c, d, k);
      assert keys == init + [keys[|keys| - 1]];
      if k in init {
        assert keys[|keys| - 1] != k;
      }
    }
  }

  /** Every bump adds exactly one to the total. */
  lemma BumpTotal<K(!new)>(c: Counter<K>, k: K)
    requires Valid(c)
    ensures Total(Bump(c, k)) == Total(c) + 1
  {
    var r := Bump(c, k);
    BumpSpec(c, k);
    if k in c.counts {
      SumOverChange(c.order, c, r, k);
    } else {
      SumOverChange(c.order, c, r, k);
      assert r.order[..|r.order| - 1] == c.order;
    }
  }

  /** The total is zero exactly when no key was ever bumped. */
  lemma {:induction false} TotalZero<K(!new)>(keys: seq<K>, c: Counter<K>)
    requires forall k :: k in keys ==> Get(c, k) >= 1
    ensures SumOver(keys, c) == 0 <==> keys == []
    ensures SumOver(keys, c) >= |keys|
  {
    if keys != [] {
      var init := keys[..|keys| - 1];
      assert forall k :: k in init ==> k in keys;
      TotalZero(init, c);
    }
  }

  /** The position of `max(keys, key=d.get)`: a later key replaces the best so far only with a strictly larger count. */
  function ArgMax<K(==,!new)>(keys: seq<K>, c: Counter<K>): (i: nat)
    requires keys != []
    ensures i < |keys|
  {
    if |keys| == 1 then 0
    else
      var best := ArgMax(keys[..|keys| - 1], c);
      if Get(c, keys[|keys| - 1]) > Get(c, keys[best]) then |keys| - 1 else best
  }

  /** It is the first position holding the largest count. */
  lemma {:induction false} ArgMaxSpec<K(!new)>(keys: seq<K>, c: Counter<K>)
    requires keys != []
    ensures var i := ArgMax(keys, c);
      && (forall j :: 0 <= j < |keys| ==> Get(c, keys[j]) <= Get(c, keys[i]))
      && (forall j :: 0 <= j < i ==> Get(c, keys[j]) < Get(c, keys[i]))
  {
    if |keys| > 1 {
      var init := keys[..|keys| - 1];
      ArgMaxSpec(init, c);
      assert forall j :: 0 <= j < |init| ==> init[j] == keys[j];
    }
  }

  /** `max(d, key=d.get) if d else None`. */
  function MostCommon<K(==,!new)>(c: Counter<K>): (r: Option<K>)
    ensures r.None? <==> c.order == []
  {
    if c.order == [] then None else Some(c.order[ArgMax(c.order, c)])
  }

  /** The number of keys, in order, whose count is positive. */
  function CountPositive<K(==,!new)>(keys: seq<K>, c: Counter<K>): (n: nat)
    ensures n <= |keys|
  {
    if keys == [] then 0 else CountPositive(keys[..|keys| - 1], c) + (if Get(c, keys[|keys| - 1]) > 0 then 1 else 0)
  }

  lemma {:induction false} AllPositive<K(!new)>(keys: seq<K>, c: Counter<K>)
    requires forall k :: k in keys ==> Get(c, k) >= 1
    ensures CountPositive(keys, c) == |keys|
  {
    if keys != [] {
      var init := keys[..|keys| - 1];
      assert forall k :: k in init ==> k in keys;
      AllPositive(init, c);
    }
  }
}
