/** Equality by an explicit stack with budgets, and when it answers as the recursive one. */
module JsonStack {
  import opened Wrappers
  import opened Json
  import opened JsonEquality

  const NODE_BUDGET: nat := 16384
  const DEPTH_BUDGET: nat := 16
  const FIELD_BUDGET: nat := 512
  const ITEM_BUDGET: nat := 1024
  const TEXT_BUDGET: nat := 4096

  datatype Code = BoundedComparison

  /** Two trees still to be compared, and how deep they lie. */
  datatype Pair = Pair(left: Value, right: Value, depth: nat)

  function Nodes(v: Value): (n: nat)
    ensures n > 0
    decreases v
  {
    match v
    case List(items) => 1 + ItemNodes(items)
    case Object(fields) => 1 + FieldNodes(fields)
    case _ => 1
  }

  function ItemNodes(items: seq<Value>): nat
    decreases items
  {
    if |items| == 0 then 0 else ItemNodes(items[..|items| - 1]) + Nodes(items[|items| - 1])
  }

  function FieldNodes(fields: seq<Field>): nat
    decreases fields
  {
    if |fields| == 0 then 0 else FieldNodes(fields[..|fields| - 1]) + Nodes(fields[|fields| - 1].value)
  }

  /** The tree stays within the budgets of depth, breadth and text, seen from this depth. */
  ghost predicate Fits(v: Value, depth: nat)
    decreases v
  {
    && depth <= DEPTH_BUDGET
    && match v
       case Str(text) => |text| <= TEXT_BUDGET
       case List(items) => |items| <= ITEM_BUDGET && forall i :: 0 <= i < |items| ==> Fits(items[i], depth + 1)
       case Object(fields) => |fields| <= FIELD_BUDGET && forall i :: 0 <= i < |fields| ==>
         Fits(fields[i].value, depth + 1)
       case _ => true
  }

  // ---- the pairs that one pair leads to ---------------------------------------------------------------------

  function ItemPairs(a: seq<Value>, b: seq<Value>, depth: nat): (r: seq<Pair>)
    requires |a| == |b|
    ensures |r| == |a| && forall i :: 0 <= i < |a| ==> r[i] == Pair(a[i], b[i], depth)
  {
    if |a| == 0 then [] else
      ItemPairs(a[..|a| - 1], b[..|a| - 1], depth) + [Pair(a[|a| - 1], b[|a| - 1], depth)]
  }

  function FieldPairs(a: seq<Field>, b: seq<Field>, depth: nat): (r: seq<Pair>)
    requires forall i :: 0 <= i < |a| ==> HasKey(b, a[i].key)
    ensures |r| == |a| && forall i :: 0 <= i < |a| ==> r[i] == Pair(a[i].value, Lookup(b, a[i].key), depth)
  {
    if |a| == 0 then [] else
      var last := a[|a| - 1];
      FieldPairs(a[..|a| - 1], b, depth) + [Pair(last.value, Lookup(b, last.key), depth)]
  }

  function PairNodes(pending: seq<Pair>): nat {
    if |pending| == 0 then 0 else PairNodes(pending[..|pending| - 1]) + Nodes(pending[|pending| - 1].left)
  }

  lemma {:induction false} PairNodesAdd(a: seq<Pair>, b: seq<Pair>)
    ensures PairNodes(a + b) == PairNodes(a) + PairNodes(b)
  {
    if |b| == 0 {
      assert a + b == a;
    } else {
      PairNodesAdd(a, b[..|b| - 1]);
      assert (a + b)[..|a + b| - 1] == a + b[..|b| - 1];
    }
  }

  lemma {:induction false} ItemPairNodes(a: seq<Value>, b: seq<Value>, depth: nat)
    requires |a| == |b|
    ensures PairNodes(ItemPairs(a, b, depth)) == ItemNodes(a)
  {
    if |a| > 0 {
      ItemPairNodes(a[..|a| - 1], b[..|a| - 1], depth);
      var r := ItemPairs(a, b, depth);
      assert r[..|r| - 1] == ItemPairs(a[..|a| - 1], b[..|a| - 1], depth);
    }
  }

  lemma {:induction false} FieldPairNodes(a: seq<Field>, b: seq<Field>, depth: nat)
    requires forall i :: 0 <= i < |a| ==> HasKey(b, a[i].key)
    ensures PairNodes(FieldPairs(a, b, depth)) == FieldNodes(a)
  {
    if |a| > 0 {
      FieldPairNodes(a[..|a| - 1], b, depth);
      var r := FieldPairs(a, b, depth);
      assert r[..|r| - 1] == FieldPairs(a[..|a| - 1], b, depth);
    }
  }

  // ---- what the stack stands for -----------------------------------------------------------------------------

  ghost predicate AllSame(pending: seq<Pair>) {
    forall i :: 0 <= i < |pending| ==> Same(pending[i].left, pending[i].right)
  }

  ghost predicate AllFit(pending: seq<Pair>) {
    forall i :: 0 <= i < |pending| ==> Fits(pending[i].left, pending[i].depth)
  }

  ghost predicate AllFormed(pending: seq<Pair>) {
    forall i :: 0 <= i < |pending| ==> WellFormed(pending[i].left) && WellFormed(pending[i].right)
  }

  lemma {:induction false} AllAdd(a: seq<Pair>, b: seq<Pair>)
    ensures AllSame(a + b) <==> AllSame(a) && AllSame(b)
    ensures AllFit(a + b) <==> AllFit(a) && AllFit(b)
    ensures AllFormed(a + b) <==> AllFormed(a) && AllFormed(b)
  {
    var c := a + b;
    assert forall i :: 0 <= i < |a| ==> c[i] == a[i];
    assert forall i :: 0 <= i < |b| ==> b[i] == c[|a| + i];
  }

  ghost predicate EachFromLeft(a: seq<Field>, b: seq<Field>)
    requires SameKeys(a, b)
  {
    forall i :: 0 <= i < |a| ==> Same(a[i].value, Lookup(b, a[i].key))
  }

  ghost predicate EachFromRight(a: seq<Field>, b: seq<Field>)
    requires SameKeys(a, b)
  {
    forall j :: 0 <= j < |b| ==> Same(Lookup(a, b[j].key), b[j].value)
  }

  /** Comparing the fields from either side is the same. */
  lemma {:induction false} FieldsFromEitherSide(a: seq<Field>, b: seq<Field>)
    requires Distinct(a) && Distinct(b) && SameKeys(a, b)
    ensures EachFromLeft(a, b) <==> EachFromRight(a, b)
  {
    if EachFromLeft(a, b) {
      forall j | 0 <= j < |b| ensures Same(Lookup(a, b[j].key), b[j].value) {
        assert HasKey(a, b[j].key);
        var i :| 0 <= i < |a| && a[i] == Field(b[j].key, Lookup(a, b[j].key));
        LookupIs(b, j);
      }
    }
    if EachFromRight(a, b) {
      forall i | 0 <= i < |a| ensures Same(a[i].value, Lookup(b, a[i].key)) {
        assert HasKey(b, a[i].key);
        var j :| 0 <= j < |b| && b[j] == Field(a[i].key, Lookup(b, a[i].key));
        LookupIs(a, i);
      }
    }
  }

  lemma {:induction false} ObjectsSame(a: seq<Field>, b: seq<Field>)
    requires SameKeys(a, b)
    ensures Same(Object(a), Object(b)) <==> EachFromRight(a, b)
  {
  }

  lemma {:induction false} PairsFromLeft(a: seq<Field>, b: seq<Field>, depth: nat)
    requires SameKeys(a, b)
    ensures AllSame(FieldPairs(a, b, depth)) <==> EachFromLeft(a, b)
  {
    var next := FieldPairs(a, b, depth);
    assert forall i :: 0 <= i < |a| ==> next[i].left == a[i].value && next[i].right == Lookup(b, a[i].key);
  }

  lemma {:induction false} ItemsExpand(a: seq<Value>, b: seq<Value>, depth: nat)
    requires |a| == |b| && WellFormed(List(a)) && WellFormed(List(b))
    ensures var next := ItemPairs(a, b, depth + 1);
            && (Same(List(a), List(b)) <==> AllSame(next)) && AllFormed(next)
            && (Fits(List(a), depth) <==> depth <= DEPTH_BUDGET && |a| <= ITEM_BUDGET && AllFit(next))
            && PairNodes(next) == Nodes(List(a)) - 1
  {
    ItemPairNodes(a, b, depth + 1);
  }

  lemma {:induction false} FieldsSame(a: seq<Field>, b: seq<Field>, depth: nat)
    requires SameKeys(a, b) && Distinct(a) && Distinct(b)
    ensures Same(Object(a), Object(b)) <==> AllSame(FieldPairs(a, b, depth + 1))
  {
    FieldsFromEitherSide(a, b);
    ObjectsSame(a, b);
    PairsFromLeft(a, b, depth + 1);
  }

  lemma {:induction false} FieldsFormed(a: seq<Field>, b: seq<Field>, depth: nat)
    requires SameKeys(a, b) && WellFormed(Object(a)) && WellFormed(Object(b))
    ensures AllFormed(FieldPairs(a, b, depth + 1))
  {
    forall i | 0 <= i < |a| ensures WellFormed(a[i].value) && WellFormed(Lookup(b, a[i].key)) {
      assert HasKey(b, a[i].key);
      var j :| 0 <= j < |b| && b[j] == Field(a[i].key, Lookup(b, a[i].key));
    }
  }

  lemma {:induction false} FieldsFit(a: seq<Field>, b: seq<Field>, depth: nat)
    requires SameKeys(a, b)
    ensures Fits(Object(a), depth) <==>
            depth <= DEPTH_BUDGET && |a| <= FIELD_BUDGET
            && AllFit(FieldPairs(a, b, depth + 1))
  {
    var next := FieldPairs(a, b, depth + 1);
    assert forall i :: 0 <= i < |a| ==> next[i].left == a[i].value && next[i].depth == depth + 1;
  }

  lemma {:induction false} FieldsExpand(a: seq<Field>, b: seq<Field>, depth: nat)
    requires SameKeys(a, b) && WellFormed(Object(a)) && WellFormed(Object(b))
    ensures var next := FieldPairs(a, b, depth + 1);
            && (Same(Object(a), Object(b)) <==> AllSame(next)) && AllFormed(next)
            && (Fits(Object(a), depth) <==> depth <= DEPTH_BUDGET && |a| <= FIELD_BUDGET && AllFit(next))
            && PairNodes(next) == Nodes(Object(a)) - 1
  {
    FieldPairNodes(a, b, depth + 1);
    FieldsSame(a, b, depth);
    FieldsFormed(a, b, depth);
    FieldsFit(a, b, depth);
  }

  // ---- the loop -------------------------------------------------------------------------------------------------

  /** What one popped pair decides: nothing yet (with the pairs to push), or the answer. */
  datatype Look = Push(more: seq<Pair>) | Differ

  ghost predicate Decides(p: Pair, look: Look) {
    match look
    case Differ => !Same(p.left, p.right) || !Fits(p.left, p.depth)
    case Push(more) =>
      (Same(p.left, p.right) <==> AllSame(more)) && (Fits(p.left, p.depth) <==> AllFit(more))
      && AllFormed(more) && PairNodes(more) == Nodes(p.left) - 1
  }

  method LookAtFields(a: seq<Field>, b: seq<Field>, depth: nat) returns (look: Look)
    requires WellFormed(Object(a)) && WellFormed(Object(b)) && depth <= DEPTH_BUDGET
    ensures Decides(Pair(Object(a), Object(b), depth), look)
  {
    if |a| > FIELD_BUDGET || !SameKeys(a, b) {
      return Differ;
    }
    FieldsExpand(a, b, depth);
    return Push(FieldPairs(a, b, depth + 1));
  }

  method LookAtItems(a: seq<Value>, b: seq<Value>, depth: nat) returns (look: Look)
    requires WellFormed(List(a)) && WellFormed(List(b)) && depth <= DEPTH_BUDGET
    ensures Decides(Pair(List(a), List(b), depth), look)
  {
    if |a| > ITEM_BUDGET || |a| != |b| {
      return Differ;
    }
    ItemsExpand(a, b, depth);
    return Push(ItemPairs(a, b, depth + 1));
  }

  lemma {:induction false} LeafDecides(p: Pair)
    requires p.depth <= DEPTH_BUDGET && !p.left.Object? && !p.left.List?
    ensures p.left != p.right || (p.left.Str? && |p.left.text| > TEXT_BUDGET) ==> Decides(p, Differ)
    ensures p.left == p.right && (p.left.Str? ==> |p.left.text| <= TEXT_BUDGET) ==> Decides(p, Push([]))
  {
  }

  lemma {:induction false} KindsDiffer(p: Pair)
    requires p.left.Object? != p.right.Object? || p.left.List? != p.right.List?
    ensures Decides(p, Differ)
  {
  }

  /** Compare the tops of two trees and list the pairs below them. */
  method LookAt(p: Pair) returns (look: Look)
    requires WellFormed(p.left) && WellFormed(p.right) && p.depth <= DEPTH_BUDGET
    ensures Decides(p, look)
  {
    if p.left.Object? != p.right.Object? || p.left.List? != p.right.List? {
      KindsDiffer(p);
      return Differ;
    }
    if p.left.Object? {
      look := LookAtFields(p.left.fields, p.right.fields, p.depth);
    } else if p.left.List? {
      look := LookAtItems(p.left.items, p.right.items, p.depth);
    } else {
      LeafDecides(p);
      look := if p.left != p.right || (p.left.Str? && |p.left.text| > TEXT_BUDGET) then Differ else Push([]);
    }
  }

  /** The pairs still pending stand for the comparison of the two whole trees, `count` nodes into it. */
  ghost predicate StandsFor(pending: seq<Pair>, left: Value, right: Value, count: nat) {
    && AllFormed(pending) && count + PairNodes(pending) == Nodes(left)
    && (Same(left, right) <==> AllSame(pending)) && (Fits(left, 0) <==> AllFit(pending))
  }

  lemma {:induction false} Start(left: Value, right: Value)
    requires WellFormed(left) && WellFormed(right)
    ensures StandsFor([Pair(left, right, 0)], left, right, 0)
  {
    var p := Pair(left, right, 0);
    OnlyOne(p);
    assert PairNodes([p]) == Nodes(left) by {
      assert [p][..0] == [];
    }
  }

  lemma {:induction false} TopOf(rest: seq<Pair>, p: Pair)
    ensures AllSame(rest + [p]) <==> AllSame(rest) && Same(p.left, p.right)
    ensures AllFit(rest + [p]) <==> AllFit(rest) && Fits(p.left, p.depth)
    ensures AllFormed(rest + [p]) <==> AllFormed(rest) && WellFormed(p.left) && WellFormed(p.right)
    ensures PairNodes(rest + [p]) == PairNodes(rest) + Nodes(p.left)
  {
    AllAdd(rest, [p]);
    OnlyOne(p);
    assert (rest + [p])[..|rest|] == rest;
  }

  lemma {:induction false} OnlyOne(p: Pair)
    ensures AllSame([p]) <==> Same(p.left, p.right)
    ensures AllFit([p]) <==> Fits(p.left, p.depth)
    ensures AllFormed([p]) <==> WellFormed(p.left) && WellFormed(p.right)
  {
    assert [p][0] == p;
  }

  /** A pair that differs, or lies too deep, decides the whole comparison. */
  lemma {:induction false} Decided(rest: seq<Pair>, p: Pair, left: Value, right: Value, count: nat)
    requires StandsFor(rest + [p], left, right, count)
    ensures WellFormed(p.left) && WellFormed(p.right) && count < Nodes(left)
    ensures Decides(p, Differ) ==> !Same(left, right) || !Fits(left, 0)
    ensures p.depth > DEPTH_BUDGET ==> !Fits(left, 0)
  {
    TopOf(rest, p);
  }

  lemma {:induction false} Replaced(rest: seq<Pair>, p: Pair, more: seq<Pair>, left: Value, right: Value, count: nat)
    requires StandsFor(rest + [p], left, right, count) && Decides(p, Push(more))
    ensures StandsFor(rest + more, left, right, count + 1) && PairNodes(rest + more) < PairNodes(rest + [p])
  {
    TopOf(rest, p);
    AllAdd(rest, more);
    PairNodesAdd(rest, more);
  }

  lemma {:induction false} Finished(left: Value, right: Value, count: nat)
    requires StandsFor([], left, right, count)
    ensures Same(left, right) && Fits(left, 0) && Nodes(left) == count
  {
  }

  /** Comparison by an explicit stack: it answers true exactly for equal trees within all budgets. */
  method StackSame(left: Value, right: Value) returns (r: Result<bool, Code>)
    requires WellFormed(left) && WellFormed(right)
    ensures r == Success(true) <==> Same(left, right) && Fits(left, 0) && Nodes(left) <= NODE_BUDGET
    ensures r == Success(false) ==> !Same(left, right) || !Fits(left, 0)
    ensures r.Failure? ==> Nodes(left) > NODE_BUDGET || !Fits(left, 0)
  {
    var pending, count := [Pair(left, right, 0)], 0;
    Start(left, right);
    while |pending| > 0
      invariant StandsFor(pending, left, right, count) && count <= NODE_BUDGET
      decreases PairNodes(pending)
    {
      var p, rest := pending[|pending| - 1], pending[..|pending| - 1];
      assert pending == rest + [p];
      Decided(rest, p, left, right, count);
      count := count + 1;
      if count > NODE_BUDGET || p.depth > DEPTH_BUDGET {
        return Failure(BoundedComparison);
      }
      var look := LookAt(p);
      if look.Differ? {
        return Success(false);
      }
      Replaced(rest, p, look.more, left, right, count - 1);
      pending := rest + look.more;
    }
    assert pending == [];
    Finished(left, right, count);
    return Success(true);
  }
}
