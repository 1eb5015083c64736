/** Recursive equality of JSON trees, and equality of their canonical texts. */
module JsonEquality {
  import opened Json
  import R = JsonReading

  type Key = seq<Ascii>

  // ---- dictionaries ---------------------------------------------------------------------------------------

  predicate HasKey(fields: seq<Field>, key: Key) {
    exists i :: 0 <= i < |fields| && fields[i].key == key
  }

  predicate Distinct(fields: seq<Field>) {
    forall i, j :: 0 <= i < j < |fields| ==> fields[i].key != fields[j].key
  }

  function Lookup(fields: seq<Field>, key: Key): (v: Value)
    requires HasKey(fields, key)
    ensures exists i :: 0 <= i < |fields| && fields[i] == Field(key, v)
    decreases fields
  {
    if fields[0].key == key then fields[0].value else Lookup(fields[1..], key)
  }

  /** `set(a) == set(b)` on the keys. */
  predicate SameKeys(a: seq<Field>, b: seq<Field>) {
    (forall i :: 0 <= i < |a| ==> HasKey(b, a[i].key)) && (forall i :: 0 <= i < |b| ==> HasKey(a, b[i].key))
  }

  lemma {:induction false} LookupIs(fields: seq<Field>, i: nat)
    requires i < |fields| && Distinct(fields)
    ensures HasKey(fields, fields[i].key) && Lookup(fields, fields[i].key) == fields[i].value
  {
    assert fields[i].key == fields[i].key;
  }

  /** Every dictionary in the tree has distinct keys, as a dictionary must. */
  ghost predicate WellFormed(v: Value) {
    match v
    case List(items) => forall i :: 0 <= i < |items| ==> WellFormed(items[i])
    case Object(fields) => Distinct(fields) && forall i :: 0 <= i < |fields| ==> WellFormed(fields[i].value)
    case _ => true
  }

  // ---- the recursive equality -------------------------------------------------------------------------------

  predicate Same(actual: Value, expected: Value)
    decreases expected
  {
    match expected
    case Object(fields) =>
      actual.Object? && SameKeys(actual.fields, fields)
      && forall i :: 0 <= i < |fields| ==>
         HasKey(actual.fields, fields[i].key)
         && Same(Lookup(actual.fields, fields[i].key), fields[i].value)
    case List(items) =>
      actual.List? && |actual.items| == |items| && forall i :: 0 <= i < |items| ==> Same(actual.items[i], items[i])
    case _ => actual == expected
  }

  // ---- canonical text ----------------------------------------------------------------------------------------

  /** Code-point order of keys. */
  predicate Less(a: Key, b: Key) {
    |b| > 0 && (|a| == 0 || a[0] < b[0] || (a[0] == b[0] && Less(a[1..], b[1..])))
  }

  lemma {:induction false} LessTotal(a: Key, b: Key)
    ensures a == b || Less(a, b) || Less(b, a)
  {
    if |a| > 0 && |b| > 0 && a[0] == b[0] {
      LessTotal(a[1..], b[1..]);
      assert a == [a[0]] + a[1..] && b == [b[0]] + b[1..];
    }
  }

  lemma {:induction false} LessStrict(a: Key, b: Key)
    requires Less(a, b)
    ensures a != b && !Less(b, a)
  {
    if |a| > 0 && a[0] == b[0] {
      LessStrict(a[1..], b[1..]);
    }
  }

  lemma {:induction false} LessTransitive(a: Key, b: Key, c: Key)
    requires Less(a, b) && Less(b, c)
    ensures Less(a, c)
  {
    if |a| > 0 && a[0] == b[0] == c[0] {
      LessTransitive(a[1..], b[1..], c[1..]);
    }
  }

  function InsertField(f: Field, sorted: seq<Field>): seq<Field> {
    if |sorted| == 0 || Less(f.key, sorted[0].key) then [f] + sorted else [sorted[0]] + InsertField(f, sorted[1..])
  }

  function SortFields(fields: seq<Field>): seq<Field> {
    if |fields| == 0 then [] else InsertField(fields[0], SortFields(fields[1..]))
  }

  /** The tree with every dictionary in key order. */
  function Normal(v: Value): Value
    decreases v
  {
    match v
    case List(items) => List(NormalItems(items))
    case Object(fields) => Object(SortFields(NormalFields(fields)))
    case _ => v
  }

  function NormalItems(items: seq<Value>): (r: seq<Value>)
    ensures |r| == |items| && forall i :: 0 <= i < |items| ==> r[i] == Normal(items[i])
    decreases items
  {
    if |items| == 0 then [] else [Normal(items[0])] + NormalItems(items[1..])
  }

  function NormalFields(fields: seq<Field>): (r: seq<Field>)
    ensures |r| == |fields| && forall i :: 0 <= i < |fields| ==> r[i] == Field(fields[i].key, Normal(fields[i].value))
    decreases fields
  {
    if |fields| == 0 then [] else [Field(fields[0].key, Normal(fields[0].value))] + NormalFields(fields[1..])
  }

  /** `json.dumps` with sorted keys and compact separators. */
  function Canonical(v: Value): string {
    Print(Normal(v))
  }

  // ---- sorting --------------------------------------------------------------------------------------------------

  ghost predicate Ascending(fields: seq<Field>) {
    forall i, j :: 0 <= i < j < |fields| ==> Less(fields[i].key, fields[j].key)
  }

  lemma {:induction false} InsertHolds(f: Field, sorted: seq<Field>)
    ensures forall g :: g in InsertField(f, sorted) <==> g == f || g in sorted
  {
    if |sorted| > 0 && !Less(f.key, sorted[0].key) {
      InsertHolds(f, sorted[1..]);
      assert forall g :: g in sorted <==> g == sorted[0] || g in sorted[1..];
    }
  }

  lemma {:induction false} SortHolds(fields: seq<Field>)
    ensures forall g :: g in SortFields(fields) <==> g in fields
  {
    if |fields| > 0 {
      SortHolds(fields[1..]);
      InsertHolds(fields[0], SortFields(fields[1..]));
      assert forall g :: g in fields <==> g == fields[0] || g in fields[1..];
    }
  }

  lemma {:induction false} InsertAscends(f: Field, sorted: seq<Field>)
    requires Ascending(sorted) && forall g :: g in sorted ==> g.key != f.key
    ensures Ascending(InsertField(f, sorted))
  {
    if |sorted| == 0 {
    } else if Less(f.key, sorted[0].key) {
      forall i | 0 <= i < |sorted| ensures Less(f.key, sorted[i].key) {
        if i > 0 {
          LessTransitive(f.key, sorted[0].key, sorted[i].key);
        }
      }
    } else {
      LessTotal(f.key, sorted[0].key);
      assert sorted[0] in sorted;
      InsertAscends(f, sorted[1..]);
      InsertHolds(f, sorted[1..]);
      var tail := InsertField(f, sorted[1..]);
      forall i | 0 <= i < |tail| ensures Less(sorted[0].key, tail[i].key) {
        assert tail[i] in tail;
        assert tail[i] == f || tail[i] in sorted[1..];
      }
    }
  }

  lemma {:induction false} SortAscends(fields: seq<Field>)
    requires Distinct(fields)
    ensures Ascending(SortFields(fields))
  {
    if |fields| > 0 {
      SortAscends(fields[1..]);
      SortHolds(fields[1..]);
      forall g | g in SortFields(fields[1..]) ensures g.key != fields[0].key {
        assert g in fields[1..];
      }
      InsertAscends(fields[0], SortFields(fields[1..]));
    }
  }

  lemma {:induction false} FirstIn(a: seq<Field>)
    ensures a == [] || a[0] in a
  {
  }

  /** Two ascending lists with the same fields are the same list. */
  lemma {:induction false} AscendingUnique(a: seq<Field>, b: seq<Field>)
    requires Ascending(a) && Ascending(b) && forall g :: g in a <==> g in b
    ensures a == b
    decreases |a|
  {
    if |a| == 0 {
      FirstIn(b);
    } else {
      assert a[0] in b && |b| > 0;
      assert b[0] in a;
      FirstIsLeast(a, b[0]);
      FirstIsLeast(b, a[0]);
      if a[0] != b[0] {
        LessStrict(a[0].key, b[0].key);
      }
      forall g ensures g in a[1..] <==> g in b[1..] {
        NotAgain(a);
        NotAgain(b);
        assert g in a <==> g == a[0] || g in a[1..];
        assert g in b <==> g == b[0] || g in b[1..];
      }
      AscendingUnique(a[1..], b[1..]);
      assert a == [a[0]] + a[1..] && b == [b[0]] + b[1..];
    }
  }

  lemma {:induction false} FirstIsLeast(a: seq<Field>, g: Field)
    requires Ascending(a) && g in a
    ensures a[0] == g || Less(a[0].key, g.key)
  {
  }

  lemma {:induction false} NotAgain(a: seq<Field>)
    requires Ascending(a) && |a| > 0
    ensures a[0] !in a[1..]
  {
    forall i | 0 < i < |a| ensures a[i] != a[0] {
      LessStrict(a[0].key, a[i].key);
    }
  }

  /** Sorting forgets the order and nothing else. */
  lemma {:induction false} SortedAlike(a: seq<Field>, b: seq<Field>)
    requires Distinct(a) && Distinct(b)
    ensures SortFields(a) == SortFields(b) <==> forall g :: g in a <==> g in b
  {
    SortHolds(a);
    SortHolds(b);
    SortAscends(a);
    SortAscends(b);
    if forall g :: g in a <==> g in b {
      AscendingUnique(SortFields(a), SortFields(b));
    }
  }

  // ---- canonical text agrees with the recursive equality ------------------------------------------------------

  ghost predicate Agree(a: Value, b: Value) {
    Same(a, b) <==> Normal(a) == Normal(b)
  }

  lemma {:induction false} SameIsNormal(a: Value, b: Value)
    requires WellFormed(a) && WellFormed(b)
    ensures Agree(a, b)
    decreases b
  {
    if a.List? && b.List? && |a.items| == |b.items| {
      forall i | 0 <= i < |b.items| ensures Agree(a.items[i], b.items[i]) {
        SameIsNormal(a.items[i], b.items[i]);
      }
      ItemsAgree(a.items, b.items);
    } else if a.Object? && b.Object? {
      forall i, j | 0 <= i < |a.fields| && 0 <= j < |b.fields| ensures Agree(a.fields[i].value, b.fields[j].value) {
        SameIsNormal(a.fields[i].value, b.fields[j].value);
      }
      FieldsAgree(a.fields, b.fields);
    }
  }

  lemma {:induction false} ItemsAgree(a: seq<Value>, b: seq<Value>)
    requires |a| == |b| && forall i :: 0 <= i < |b| ==> Agree(a[i], b[i])
    ensures Agree(List(a), List(b))
  {
    ItemsAlike(a, b);
  }

  lemma {:induction false} FieldsAgree(a: seq<Field>, b: seq<Field>)
    requires Distinct(a) && Distinct(b)
    requires forall i, j :: 0 <= i < |a| && 0 <= j < |b| ==> Agree(a[i].value, b[j].value)
    ensures Agree(Object(a), Object(b))
  {
    FieldsAlike(a, b);
    forall j | 0 <= j < |b| && HasKey(a, b[j].key) ensures Agree(Lookup(a, b[j].key), b[j].value) {
      var i :| 0 <= i < |a| && a[i] == Field(b[j].key, Lookup(a, b[j].key));
    }
  }

  lemma {:induction false} ItemsAlike(a: seq<Value>, b: seq<Value>)
    requires |a| == |b|
    ensures NormalItems(a) == NormalItems(b) <==> forall i :: 0 <= i < |a| ==> Normal(a[i]) == Normal(b[i])
  {
    if NormalItems(a) == NormalItems(b) {
      forall i | 0 <= i < |a| ensures Normal(a[i]) == Normal(b[i]) {
        assert NormalItems(a)[i] == NormalItems(b)[i];
      }
    }
  }

  ghost predicate EachAlike(a: seq<Field>, b: seq<Field>) {
    && SameKeys(a, b)
    && forall i :: 0 <= i < |b| ==> HasKey(a, b[i].key) && Normal(Lookup(a, b[i].key)) == Normal(b[i].value)
  }

  lemma {:induction false} FieldsAlike(a: seq<Field>, b: seq<Field>)
    requires Distinct(a) && Distinct(b)
    ensures EachAlike(a, b) <==> SortFields(NormalFields(a)) == SortFields(NormalFields(b))
  {
    var m, n := NormalFields(a), NormalFields(b);
    SortedAlike(m, n);
    if EachAlike(a, b) {
      EachGives(a, b);
    }
    if forall g :: g in m <==> g in n {
      GivesEach(a, b);
    }
  }

  lemma {:induction false} EachGives(a: seq<Field>, b: seq<Field>)
    requires Distinct(a) && Distinct(b) && EachAlike(a, b)
    ensures forall g :: g in NormalFields(a) <==> g in NormalFields(b)
  {
    var m, n := NormalFields(a), NormalFields(b);
    forall j | 0 <= j < |b| ensures n[j] in m {
      var i :| 0 <= i < |a| && a[i] == Field(b[j].key, Lookup(a, b[j].key));
      assert m[i] == n[j];
    }
    forall i | 0 <= i < |a| ensures m[i] in n {
      assert HasKey(b, a[i].key);
      var j :| 0 <= j < |b| && b[j].key == a[i].key;
      LookupIs(a, i);
      assert m[i] == n[j];
    }
  }

  lemma {:induction false} GivesEach(a: seq<Field>, b: seq<Field>)
    requires Distinct(a) && Distinct(b) && forall g :: g in NormalFields(a) <==> g in NormalFields(b)
    ensures EachAlike(a, b)
  {
    var m, n := NormalFields(a), NormalFields(b);
    forall i | 0 <= i < |a| ensures HasKey(b, a[i].key) {
      assert m[i] in n;
      var j :| 0 <= j < |n| && n[j] == m[i];
      assert b[j].key == a[i].key;
    }
    forall j | 0 <= j < |b| ensures HasKey(a, b[j].key) && Normal(Lookup(a, b[j].key)) == Normal(b[j].value) {
      assert n[j] in m;
      var i :| 0 <= i < |m| && m[i] == n[j];
      assert a[i].key == b[j].key;
      LookupIs(a, i);
    }
  }

  /** Equal canonical bytes mean exactly recursive equality. */
  lemma {:induction false} CanonicalExactly(a: Value, b: Value)
    requires WellFormed(a) && WellFormed(b)
    ensures Canonical(a) == Canonical(b) <==> Same(a, b)
  {
    SameIsNormal(a, b);
    if Canonical(a) == Canonical(b) {
      R.PrintReads(Normal(a), Normal(b));
    }
  }
}
