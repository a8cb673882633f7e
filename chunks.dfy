// Running totals over chunk sequences, the record ceiling of the chunk loops,
// and the fixed-size slicing the processors use (read_csv's chunksize and the
// 10000-record batch slices).
module Chunks {

  /** The total of a sequence of counts. */
  function Sum(s: seq<nat>): nat
  {
    if s == [] then 0 else Sum(s[..|s| - 1]) + s[|s| - 1]
  }

  /** Adding one more count to a running total. */
  lemma SumStep(s: seq<nat>, i: nat)
    requires i < |s|
    ensures Sum(s[..i + 1]) == Sum(s[..i]) + s[i]
  {
    assert s[..i + 1][..i] == s[..i];
  }

  lemma {:induction false} SumAppend(a: seq<nat>, b: seq<nat>)
    ensures Sum(a + b) == Sum(a) + Sum(b)
    decreases |b|
  {
    if b == [] {
      assert a + b == a;
    } else {
      var c := b[..|b| - 1];
      assert (a + b)[..|a + b| - 1] == a + c;
      SumAppend(a, c);
    }
  }

  lemma SumFront(s: seq<nat>)
    requires s != []
    ensures Sum(s) == s[0] + Sum(s[1..])
  {
    SumAppend([s[0]], s[1..]);
    assert [s[0]] + s[1..] == s;
    assert [s[0]][..0] == [];
  }

  /** A prefix that leaves out the first count. */
  lemma PrefixFront(s: seq<nat>, j: nat)
    requires 1 <= j <= |s|
    ensures Sum(s[..j]) == s[0] + Sum(s[1..][..j - 1])
  {
    SumFront(s[..j]);
    assert s[..j][1..] == s[1..][..j - 1];
  }

  lemma {:induction false} SumMonotone(s: seq<nat>, i: nat, j: nat)
    requires i <= j <= |s|
    ensures Sum(s[..i]) <= Sum(s[..j])
    decreases j - i
  {
    if i < j {
      SumStep(s, j - 1);
      SumMonotone(s, i, j - 1);
    }
  }

  // ---------------------------------------------------------------------
  // The ceiling. A loop that checks `total >= limit` BEFORE each chunk (and
  // breaks) processes Reached(s, limit) chunks, where s holds the amounts the
  // total grows by per chunk; one that checks AFTER each chunk processes
  // ReachedAfter(s, limit).

  function Reached(s: seq<nat>, limit: int): (k: nat)
    ensures k <= |s|
  {
    if s == [] || limit <= 0 then 0 else 1 + Reached(s[1..], limit - s[0])
  }

  function ReachedAfter(s: seq<nat>, limit: int): (k: nat)
    ensures k <= |s|
  {
    if s == [] then 0
    else if s[0] >= limit then 1
    else 1 + ReachedAfter(s[1..], limit - s[0])
  }

  /** Before-check: every processed chunk started below the limit, and the loop stopped at the end or once the total reached it. */
  lemma {:induction false} ReachedSpec(s: seq<nat>, limit: int)
    ensures var k := Reached(s, limit);
      (forall j :: 0 <= j < k ==> Sum(s[..j]) < limit) && (k == |s| || Sum(s[..k]) >= limit)
  {
    var k := Reached(s, limit);
    if s != [] && limit > 0 {
      ReachedSpec(s[1..], limit - s[0]);
      forall j | 0 <= j < k ensures Sum(s[..j]) < limit {
        if j == 0 {
          assert s[..0] == [];
        } else {
          PrefixFront(s, j);
        }
      }
      if k < |s| {
        PrefixFront(s, k);
      }
    } else if s != [] {
      assert s[..0] == [];
    }
  }

  /** The characterisation determines the count: a loop whose state satisfies it processed Reached(s, limit) chunks. */
  lemma ReachedUnique(s: seq<nat>, limit: int, k: nat)
    requires k <= |s|
    requires forall j :: 0 <= j < k ==> Sum(s[..j]) < limit
    requires k == |s| || Sum(s[..k]) >= limit
    ensures k == Reached(s, limit)
  {
    ReachedSpec(s, limit);
  }

  /** A loop that stopped at k, having entered its last chunk below the limit, processed Reached(s, limit) chunks: the running totals only grow, so every earlier chunk started below the limit too. */
  lemma ReachedAt(s: seq<nat>, limit: int, k: nat)
    requires k <= |s|
    requires k == 0 || Sum(s[..k - 1]) < limit
    requires k == |s| || Sum(s[..k]) >= limit
    ensures k == Reached(s, limit)
  {
    forall j | 0 <= j < k ensures Sum(s[..j]) < limit {
      SumMonotone(s, j, k - 1);
    }
    ReachedUnique(s, limit, k);
  }

  /** The total overshoots the limit by less than the last processed chunk's amount. */
  lemma Overshoot(s: seq<nat>, limit: int)
    requires Reached(s, limit) > 0
    ensures var k := Reached(s, limit); Sum(s[..k]) < limit + s[k - 1]
  {
    var k := Reached(s, limit);
    ReachedSpec(s, limit);
    SumStep(s, k - 1);
  }

  /** With a positive limit, checking before or after a chunk processes the same chunks. */
  lemma {:induction false} AfterSameAsBefore(s: seq<nat>, limit: int)
    requires limit > 0
    ensures ReachedAfter(s, limit) == Reached(s, limit)
  {
    if s != [] && s[0] < limit {
      AfterSameAsBefore(s[1..], limit - s[0]);
    } else if s != [] {
      assert Reached(s[1..], limit - s[0]) == 0;
    }
  }

  /** A check after the chunk always lets the first chunk through; a check before it does not when the limit is not positive. */
  lemma AfterProcessesFirst(s: seq<nat>, limit: int)
    requires s != []
    ensures ReachedAfter(s, limit) >= 1
    ensures limit <= 0 ==> Reached(s, limit) == 0
  {
  }

  // ---------------------------------------------------------------------
  // Slicing into consecutive pieces of a fixed size.

  /** A loop whose counts never total the limit is never stopped: it reads every chunk. */
  lemma BelowLimitReadsAll(s: seq<nat>, limit: int)
    requires Sum(s) < limit
    ensures Reached(s, limit) == |s|
  {
    var k := Reached(s, limit);
    ReachedSpec(s, limit);
    SumMonotone(s, k, |s|);
    assert s[..|s|] == s;
  }

  function Split<T>(s: seq<T>, n: nat): (pieces: seq<seq<T>>)
    requires n > 0
    ensures forall i :: 0 <= i < |pieces| ==> 1 <= |pieces[i]| <= n
    decreases |s|
  {
    if s == [] then []
    else if |s| <= n then [s]
    else [s[..n]] + Split(s[n..], n)
  }

  function Concat<T>(pieces: seq<seq<T>>): seq<T>
  {
    if pieces == [] then [] else pieces[0] + Concat(pieces[1..])
  }

  /** The pieces cover the sequence exactly, in order. */
  lemma {:induction false} SplitConcat<T>(s: seq<T>, n: nat)
    requires n > 0
    ensures Concat(Split(s, n)) == s
    decreases |s|
  {
    if |s| > n {
      var p := Split(s, n);
      assert p[0] == s[..n] && p[1..] == Split(s[n..], n);
      SplitConcat(s[n..], n);
    } else if s != [] {
      assert Split(s, n)[1..] == [];
    }
  }

  /** Every piece but the last has exactly n elements. */
  lemma {:induction false} SplitFull<T>(s: seq<T>, n: nat)
    requires n > 0
    ensures var p := Split(s, n); forall i :: 0 <= i < |p| - 1 ==> |p[i]| == n
    decreases |s|
  {
    if |s| > n {
      var p := Split(s, n);
      SplitFull(s[n..], n);
      assert p[1..] == Split(s[n..], n);
      forall i | 0 <= i < |p| - 1 ensures |p[i]| == n {
        if i > 0 {
          assert p[i] == p[1..][i - 1];
        }
      }
    }
  }

  function Sizes<T>(pieces: seq<seq<T>>): (r: seq<nat>)
    ensures |r| == |pieces| && forall i :: 0 <= i < |r| ==> r[i] == |pieces[i]|
  {
    seq(|pieces|, i requires 0 <= i < |pieces| => |pieces[i]|)
  }

  lemma SizesFront<T>(rows: seq<T>, size: nat)
    requires 0 < size < |rows|
    ensures Sizes(Split(rows, size)) == [size] + Sizes(Split(rows[size..], size))
  {
    var p := Split(rows, size);
    assert p == [rows[..size]] + Split(rows[size..], size);
  }

  lemma MultipleStep(m: nat, size: nat)
    requires m >= 1
    ensures m * size - size == (m - 1) * size && m * size >= size
  {
    assert m * size == (m - 1) * size + size;
  }

  /**
   * A rows-seen ceiling that is a multiple of the chunk size stops after
   * exactly min(|rows|, limit) rows.
   */
  lemma {:induction false} RowsRead<T>(rows: seq<T>, size: nat, m: nat)
    requires size > 0
    ensures var s := Sizes(Split(rows, size));
      Sum(s[..Reached(s, m * size)]) == if |rows| < m * size then |rows| else m * size
    decreases |rows|
  {
    if rows == [] || m == 0 {
      RowsReadNone(rows, size, m);
    } else if |rows| <= size {
      RowsReadLast(rows, size, m);
    } else {
      RowsRead(rows[size..], size, m - 1);
      MultipleStep(m, size);
      RowsReadStep(rows, size, m * size);
    }
  }

  lemma RowsReadNone<T>(rows: seq<T>, size: nat, m: nat)
    requires size > 0 && (rows == [] || m == 0)
    ensures var s := Sizes(Split(rows, size));
      Sum(s[..Reached(s, m * size)]) == if |rows| < m * size then |rows| else m * size
  {
    var s := Sizes(Split(rows, size));
    assert m == 0 ==> m * size == 0;
    assert s[..Reached(s, m * size)] == [];
  }

  lemma RowsReadLast<T>(rows: seq<T>, size: nat, m: nat)
    requires 0 < |rows| <= size && m >= 1
    ensures var s := Sizes(Split(rows, size)); Sum(s[..Reached(s, m * size)]) == |rows|
  {
    MultipleStep(m, size);
    var s := Sizes(Split(rows, size));
    assert s == [|rows|];
    assert s[..Reached(s, m * size)] == [|rows|];
    assert Sum([|rows|]) == Sum([]) + |rows|;
  }

  lemma RowsReadStep<T>(rows: seq<T>, size: nat, limit: nat)
    requires 0 < size < |rows| && limit >= size
    requires var t := Sizes(Split(rows[size..], size));
      Sum(t[..Reached(t, limit - size)]) == if |rows| - size < limit - size then |rows| - size else limit - size
    ensures var s := Sizes(Split(rows, size));
      Sum(s[..Reached(s, limit)]) == if |rows| < limit then |rows| else limit
  {
    SizesFront(rows, size);
    FrontChunk(Sizes(Split(rows, size)), Sizes(Split(rows[size..], size)), size, limit);
  }

  /** With a first chunk of `size` rows and a positive limit, the first chunk is read and the rest proceeds against the lowered limit. */
  lemma FrontChunk(s: seq<nat>, t: seq<nat>, size: nat, limit: int)
    requires s == [size] + t && limit > 0
    ensures Sum(s[..Reached(s, limit)]) == size + Sum(t[..Reached(t, limit - size)])
  {
    assert s[1..] == t && s[0] == size;
    var k := Reached(s, limit);
    var k' := Reached(t, limit - size);
    assert k == 1 + k';
    PrefixFront(s, k);
    assert s[1..][..k - 1] == t[..k'];
  }
}
