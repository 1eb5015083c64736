/** Figures of a log stated over its row positions: how many rows are of a kind, what they read, when the
    first and the last of them were, and how high a level ran between two prefixes. */
module Positions {
  import opened Wrappers
  import opened Recorder

  /** The positions below n at which `when` holds. */
  ghost function Where(n: nat, when: nat -> bool): set<nat> {
    set k: nat | k < n && when(k)
  }

  ghost function Number(n: nat, when: nat -> bool): nat {
    |Where(n, when)|
  }

  lemma {:induction false} NumberNone(when: nat -> bool)
    ensures Number(0, when) == 0
  {
    assert Where(0, when) == {};
  }

  lemma {:induction false} NumberNext(n: nat, when: nat -> bool)
    ensures Number(n + 1, when) == Number(n, when) + (if when(n) then 1 else 0)
  {
    if when(n) {
      assert Where(n + 1, when) == Where(n, when) + {n};
    } else {
      assert Where(n + 1, when) == Where(n, when);
    }
  }

  lemma {:induction false} NumberSame(n: nat, a: nat -> bool, b: nat -> bool)
    requires forall k: nat :: k < n ==> a(k) == b(k)
    ensures Number(n, a) == Number(n, b)
  {
    assert Where(n, a) == Where(n, b);
  }

  lemma {:induction false} NumberGrows(n: nat, m: nat, when: nat -> bool)
    requires n <= m
    ensures Number(n, when) <= Number(m, when)
    ensures (exists k: nat :: n <= k < m && when(k)) <==> Number(n, when) < Number(m, when)
    decreases m
  {
    if n < m {
      var k := m - 1;
      NumberGrows(n, k, when);
      NumberNext(k, when);
      if exists j: nat :: n <= j < m && when(j) {
        var j: nat :| n <= j < m && when(j);
        assert j == k || (n <= j < k && when(j));
      }
    }
  }

  lemma {:induction false} NumberZero(n: nat, when: nat -> bool)
    ensures Number(n, when) == 0 <==> forall k: nat :: k < n ==> !when(k)
  {
    assert forall k: nat :: k < n && when(k) ==> k in Where(n, when);
    if forall k: nat :: k < n ==> !when(k) {
      assert Where(n, when) == {};
    }
  }

  /** What the positions of a kind read, in order. */
  ghost function Values(n: nat, when: nat -> bool, what: nat -> int): seq<int> {
    if n == 0 then [] else Values(n - 1, when, what) + (if when(n - 1) then [what(n - 1)] else [])
  }

  /** Each such position contributes one value, after those of the positions before it. */
  lemma {:induction false} ValuesMeaning(n: nat, when: nat -> bool, what: nat -> int)
    ensures |Values(n, when, what)| == Number(n, when)
    ensures forall k: nat :: k < n && when(k) ==>
              Number(k, when) < Number(n, when) && Values(n, when, what)[Number(k, when)] == what(k)
  {
    if n == 0 {
      NumberNone(when);
    } else {
      var m: nat := n - 1;
      ValuesMeaning(m, when, what);
      NumberNext(m, when);
    }
  }

  /** `i` and `j` are the first and the last position of the kind. */
  ghost predicate FirstLast(n: nat, when: nat -> bool, i: nat, j: nat) {
    i <= j < n && when(i) && when(j) && forall k: nat :: k < n && when(k) ==> i <= k <= j
  }

  /** The reading at the last position of the kind less that at the first. */
  ghost function Extent(n: nat, when: nat -> bool, at: nat -> int): Option<int> {
    if exists i: nat, j: nat :: FirstLast(n, when, i, j) then
      var i: nat, j: nat :| FirstLast(n, when, i, j);
      Some(at(j) - at(i))
    else None
  }

  lemma {:induction false} ExtentIs(n: nat, when: nat -> bool, at: nat -> int, i: nat, j: nat)
    requires FirstLast(n, when, i, j)
    ensures Extent(n, when, at) == Some(at(j) - at(i))
  {
  }

  lemma {:induction false} ExtentNone(n: nat, when: nat -> bool, at: nat -> int)
    requires forall k: nat :: k < n ==> !when(k)
    ensures Extent(n, when, at) == None
  {
  }

  /** The highest level at the positions from `from` up to `to`. */
  ghost function Highest(from: nat, upto: nat, level: nat -> int): int {
    if upto <= from then level(from)
    else if level(upto) > Highest(from, upto - 1, level) then level(upto) else Highest(from, upto - 1, level)
  }

  lemma {:induction false} HighestMeaning(from: nat, upto: nat, level: nat -> int)
    requires from <= upto
    ensures forall k: nat :: from <= k <= upto ==> level(k) <= Highest(from, upto, level)
    ensures exists k: nat :: from <= k <= upto && level(k) == Highest(from, upto, level)
    decreases upto
  {
    if upto > from {
      HighestMeaning(from, upto - 1, level);
      var k: nat :| from <= k <= upto - 1 && level(k) == Highest(from, upto - 1, level);
      assert level(k) == Highest(from, upto, level) || level(upto) == Highest(from, upto, level);
    } else {
      assert level(from) == Highest(from, upto, level);
    }
  }

  lemma {:induction false} HighestNext(k: nat, level: nat -> int)
    ensures Highest(0, k + 1, level) == Max(Highest(0, k, level), level(k + 1))
    ensures level(k) <= Highest(0, k, level)
  {
    HighestMeaning(0, k, level);
  }

  ghost function One(yes: bool): int {
    if yes then 1 else 0
  }

  // ---- spans -------------------------------------------------------------------------------------

  /** The span has ticked at exactly these positions. */
  ghost predicate SpanSound(span: Span, n: nat, when: nat -> bool, at: nat -> int) {
    if span.first.None? then span.last.None? && forall k: nat :: k < n ==> !when(k) else
      span.last.Some?
      && exists i: nat, j: nat :: FirstLast(n, when, i, j) && span.first.value == at(i) && span.last.value == at(j)
  }

  lemma {:induction false} SpanTicks(span: Span, k: nat, when: nat -> bool, at: nat -> int)
    requires SpanSound(span, k, when, at)
    ensures SpanSound(if when(k) then span.Tick(at(k)) else span, k + 1, when, at)
  {
    if span.first.None? {
      if when(k) {
        assert FirstLast(k + 1, when, k, k);
      }
    } else {
      var i: nat, j: nat :| FirstLast(k, when, i, j) && span.first.value == at(i) && span.last.value == at(j);
      assert if when(k) then FirstLast(k + 1, when, i, k) else FirstLast(k + 1, when, i, j);
    }
  }

  lemma {:induction false} SpanExtent(span: Span, n: nat, when: nat -> bool, at: nat -> int)
    requires SpanSound(span, n, when, at)
    ensures span.Elapsed() == Extent(n, when, at)
  {
    if span.first.None? {
      ExtentNone(n, when, at);
    } else {
      var i: nat, j: nat :| FirstLast(n, when, i, j) && span.first.value == at(i) && span.last.value == at(j);
      ExtentIs(n, when, at, i, j);
    }
  }
}
