/** What the scanner lets pass, and what the tree walk behind it may then rely on. */
module JsonFrameLaws {
  import opened Wrappers
  import opened Json
  import opened JsonFrame
  import R = JsonReading

  lemma {:induction false} ScanAdd(s: State, a: string, b: string)
    ensures Scan(s, a + b) == if Scan(s, a).None? then None else Scan(Scan(s, a).value, b)
    decreases |a|
  {
    if |a| == 0 {
      assert a + b == b;
    } else {
      assert (a + b)[0] == a[0] && (a + b)[1..] == a[1..] + b;
      if ScanByte(s, a[0]).Some? {
        ScanAdd(ScanByte(s, a[0]).value, a[1..], b);
      }
    }
  }

  ghost predicate AllPrintable(chars: string) {
    forall i :: 0 <= i < |chars| ==> Printable(chars[i])
  }

  /** Printable throughout, and no space outside literals. */
  ghost predicate Clean(t: Text) {
    match t
    case Word(chars) => AllPrintable(chars) && ' ' !in chars
    case Literal(body) => AllPrintable(body)
    case Array(parts) => forall i :: 0 <= i < |parts| ==> Clean(parts[i])
    case Members(members) => forall i :: 0 <= i < |members| ==> AllPrintable(members[i].name) && Clean(members[i].part)
  }

  function Max(a: nat, b: nat): nat {
    if a < b then b else a
  }

  /** How deep brackets nest. */
  function Nesting(t: Text): nat
    decreases t
  {
    match t
    case Word(_) => 0
    case Literal(_) => 0
    case Array(parts) => 1 + PartsNesting(parts)
    case Members(members) => 1 + MembersNesting(members)
  }

  function PartsNesting(parts: seq<Text>): nat
    decreases parts
  {
    if |parts| == 0 then 0 else Max(Nesting(parts[0]), PartsNesting(parts[1..]))
  }

  function MembersNesting(members: seq<Member>): nat
    decreases members
  {
    if |members| == 0 then 0 else Max(Nesting(members[0].part), MembersNesting(members[1..]))
  }

  ghost function At(depth: nat): State {
    State(false, false, depth)
  }

  ghost function Outcome(good: bool, s: State): Option<State> {
    if good then Some(s) else None
  }

  lemma {:induction false} WordScans(chars: string, depth: nat)
    requires forall i :: 0 <= i < |chars| ==> !Special(chars[i])
    ensures Scan(At(depth), chars) == Outcome(AllPrintable(chars) && ' ' !in chars, At(depth))
  {
    if |chars| > 0 {
      var rest := chars[1..];
      WordScans(rest, depth);
      assert chars == [chars[0]] + rest;
      assert ' ' in chars <==> chars[0] == ' ' || ' ' in rest;
      PrintableStep(chars);
    }
  }

  lemma {:induction false} PrintableStep(chars: string)
    requires |chars| > 0
    ensures AllPrintable(chars) <==> Printable(chars[0]) && AllPrintable(chars[1..])
  {
    assert forall i :: 0 < i < |chars| ==> chars[i] == chars[1..][i - 1];
  }

  lemma {:induction false} BodyScans(body: string, depth: nat)
    requires BodyOk(body)
    ensures Scan(State(true, false, depth), body) == Outcome(AllPrintable(body), State(true, false, depth))
    decreases |body|
  {
    if |body| > 0 {
      PrintableStep(body);
      if body[0] == '\\' {
        PrintableStep(body[1..]);
        assert body[1..][1..] == body[2..];
        BodyScans(body[2..], depth);
      } else {
        BodyScans(body[1..], depth);
      }
    }
  }

  lemma {:induction false} QuotedScans(body: string, depth: nat)
    requires BodyOk(body)
    ensures Scan(At(depth), "\"" + body + "\"") == Outcome(AllPrintable(body), At(depth))
  {
    ScanAdd(At(depth), "\"" + body, "\"");
    ScanAdd(At(depth), "\"", body);
    BodyScans(body, depth);
    OneByte(At(depth), '"');
    OneByte(State(true, false, depth), '"');
  }

  lemma {:induction false} OneByte(s: State, c: char)
    ensures Scan(s, [c]) == ScanByte(s, c)
  {
    if ScanByte(s, c).Some? {
      assert [c][1..] == "";
    }
  }

  lemma {:induction false} BracketScans(open: char, inside: string, close: char, depth: nat, good: bool)
    requires (open == '[' && close == ']') || (open == '{' && close == '}')
    requires depth < DEPTH_LIMIT ==> Scan(At(depth + 1), inside) == Outcome(good, At(depth + 1))
    ensures Scan(At(depth), [open] + inside + [close]) == Outcome(depth < DEPTH_LIMIT && good, At(depth))
  {
    ScanAdd(At(depth), [open] + inside, [close]);
    ScanAdd(At(depth), [open], inside);
    OneByte(At(depth), open);
    OneByte(At(depth + 1), close);
  }

  /** The scanner passes over a text exactly when it is clean and its brackets stay within the limit. */
  lemma {:induction false} TextScans(t: Text, depth: nat)
    requires TextOk(t) && depth <= DEPTH_LIMIT
    ensures Scan(At(depth), Spell(t)) == Outcome(Clean(t) && depth + Nesting(t) <= DEPTH_LIMIT, At(depth))
    decreases t
  {
    match t {
      case Word(chars) => WordScans(chars, depth);
      case Literal(body) => QuotedScans(body, depth);
      case Array(parts) =>
        if depth < DEPTH_LIMIT {
          PartsScan(parts, depth + 1);
        }
        BracketScans('[', SpellParts(parts), ']', depth, Clean(t) && depth + Nesting(t) <= DEPTH_LIMIT);
      case Members(members) =>
        if depth < DEPTH_LIMIT {
          MembersScan(members, depth + 1);
        }
        BracketScans('{', SpellMembers(members), '}', depth, Clean(t) && depth + Nesting(t) <= DEPTH_LIMIT);
    }
  }

  lemma {:induction false} PartsScan(parts: seq<Text>, depth: nat)
    requires TextOk(Array(parts)) && depth <= DEPTH_LIMIT
    ensures Scan(At(depth), SpellParts(parts)) == Outcome(Clean(Array(parts))
            && depth + PartsNesting(parts) <= DEPTH_LIMIT, At(depth))
    decreases parts
  {
    if |parts| > 0 {
      TextScans(parts[0], depth);
      CleanParts(parts);
      if |parts| == 1 {
        assert Spell(parts[0]) + "" == Spell(parts[0]);
      } else {
        var rest := parts[1..];
        PartsScan(rest, depth);
        ScanAdd(At(depth), Spell(parts[0]), "," + SpellParts(rest));
        ScanAdd(At(depth), ",", SpellParts(rest));
        OneByte(At(depth), ',');
      }
    }
  }

  lemma {:induction false} CleanParts(parts: seq<Text>)
    requires |parts| > 0
    ensures Clean(Array(parts)) <==> Clean(parts[0]) && Clean(Array(parts[1..]))
  {
    assert forall i :: 0 < i < |parts| ==> parts[i] == parts[1..][i - 1];
  }

  lemma {:induction false} CleanMembers(members: seq<Member>)
    requires |members| > 0
    ensures Clean(Members(members)) <==>
            AllPrintable(members[0].name) && Clean(members[0].part)
            && Clean(Members(members[1..]))
  {
    assert forall i :: 0 < i < |members| ==> members[i] == members[1..][i - 1];
  }

  lemma {:induction false} MemberScans(m: Member, depth: nat)
    requires BodyOk(m.name) && TextOk(m.part) && depth <= DEPTH_LIMIT
    ensures Scan(At(depth), SpellMember(m)) == Outcome(AllPrintable(m.name) && Clean(m.part)
            && depth + Nesting(m.part) <= DEPTH_LIMIT, At(depth))
    decreases m
  {
    TextScans(m.part, depth);
    QuotedScans(m.name, depth);
    assert SpellMember(m) == ("\"" + m.name + "\"") + (":" + Spell(m.part));
    ScanAdd(At(depth), "\"" + m.name + "\"", ":" + Spell(m.part));
    ScanAdd(At(depth), ":", Spell(m.part));
    OneByte(At(depth), ':');
  }

  lemma {:induction false} MembersScan(members: seq<Member>, depth: nat)
    requires TextOk(Members(members)) && depth <= DEPTH_LIMIT
    ensures Scan(At(depth), SpellMembers(members)) == Outcome(Clean(Members(members))
            && depth + MembersNesting(members) <= DEPTH_LIMIT, At(depth))
    decreases members
  {
    if |members| > 0 {
      MemberScans(members[0], depth);
      CleanMembers(members);
      if |members| == 1 {
        assert SpellMember(members[0]) + "" == SpellMember(members[0]);
      } else {
        var rest := members[1..];
        MembersScan(rest, depth);
        ScanAdd(At(depth), SpellMember(members[0]), "," + SpellMembers(rest));
        ScanAdd(At(depth), ",", SpellMembers(rest));
        OneByte(At(depth), ',');
      }
    }
  }

  /** A compact object text with a newline passes exactly when it fits, is clean and nests at most 32 deep. */
  lemma {:induction false} FrameExactly(members: seq<Member>, maximum: nat)
    requires TextOk(Members(members))
    ensures var t := Members(members);
            FrameOk(Spell(t) + "\n", maximum) <==> |Spell(t)| + 1 <= maximum && Clean(t) && Nesting(t) <= DEPTH_LIMIT
  {
    var raw := Spell(Members(members)) + "\n";
    TextScans(Members(members), 0);
    assert raw[..|raw| - 1] == Spell(Members(members)) && raw[0] == '{';
  }

  // ---- printed values, and values read back -----------------------------------------------------------------

  lemma {:induction false} EscapeClean(c: Ascii)
    ensures AllPrintable(Escape(c))
  {
    assert forall i :: 0 <= i < 16 ==> Printable("0123456789abcdef"[i]);
  }

  lemma {:induction false} EscapesClean(s: seq<Ascii>)
    ensures AllPrintable(EscapeAll(s))
  {
    if |s| > 0 {
      EscapeClean(s[0]);
      EscapesClean(s[1..]);
    }
  }

  lemma {:induction false} DecimalClean(n: nat)
    ensures AllPrintable(Decimal(n)) && ' ' !in Decimal(n)
  {
    R.DecimalDigits(n);
  }

  lemma {:induction false} ListClean(items: seq<Value>)
    requires forall i :: 0 <= i < |items| ==> Clean(Write(items[i]))
    ensures Clean(Write(List(items)))
  {
  }

  lemma {:induction false} ObjectClean(fields: seq<Field>)
    requires forall i :: 0 <= i < |fields| ==> AllPrintable(EscapeAll(fields[i].key)) && Clean(Write(fields[i].value))
    ensures Clean(Write(Object(fields)))
  {
  }

  lemma {:induction false} NumeralClean(number: int)
    ensures AllPrintable(Numeral(number)) && ' ' !in Numeral(number)
  {
    DecimalClean(if number < 0 then -number else number);
  }

  lemma {:induction false} WordsClean()
    ensures Clean(Word("null")) && Clean(Word("true")) && Clean(Word("false"))
  {
  }

  lemma {:induction false} LeafClean(v: Value)
    requires !v.List? && !v.Object?
    ensures Clean(Write(v))
  {
    WordsClean();
    if v.Int? {
      NumeralClean(v.number);
    } else if v.Str? {
      EscapesClean(v.text);
    }
  }

  lemma {:induction false} FieldClean(field: Field)
    ensures AllPrintable(EscapeAll(field.key)) && Clean(Write(field.value))
    decreases field, 0
  {
    EscapesClean(field.key);
    PrintClean(field.value);
  }

  /** Whatever the strings hold, the compact print is clean. */
  lemma {:induction false} PrintClean(v: Value)
    ensures Clean(Write(v))
    decreases v, 1
  {
    if v.List? {
      forall i | 0 <= i < |v.items| ensures Clean(Write(v.items[i])) {
        PrintClean(v.items[i]);
      }
      ListClean(v.items);
    } else if v.Object? {
      forall i | 0 <= i < |v.fields| {
        FieldClean(v.fields[i]);
      }
      ObjectClean(v.fields);
    } else {
      LeafClean(v);
    }
  }

  /** The compact print of an object, with its newline, passes the scanner exactly when it fits and its brackets
      nest at most 32 deep: no string can make it fail. */
  lemma {:induction false} PrintedFrame(fields: seq<Field>, maximum: nat)
    ensures FrameOk(Print(Object(fields)) + "\n", maximum) <==>
              |Print(Object(fields))| + 1 <= maximum && Nesting(Write(Object(fields))) <= DEPTH_LIMIT
  {
    var members := WriteFields(fields);
    assert Write(Object(fields)) == Members(members);
    R.WrittenOk(Object(fields));
    PrintClean(Object(fields));
    FrameExactly(members, maximum);
  }

  /** The value that a text is read as: any literal spelling of a string, but the same shape. */
  ghost predicate Reads(t: Text, v: Value)
    decreases t
  {
    match t
    case Word(_) => v.Null? || v.Bool? || v.Int?
    case Literal(_) => v.Str?
    case Array(parts) => v.List? && |v.items| == |parts| && forall i :: 0 <= i < |parts| ==> Reads(parts[i], v.items[i])
    case Members(members) =>
      v.Object? && |v.fields| == |members| && forall i :: 0 <= i < |members| ==>
        Reads(members[i].part, v.fields[i].value)
  }

  /** The deepest visit of the tree walk: keys and items lie one below their container. */
  function Visited(v: Value): nat
    decreases v
  {
    match v
    case List(items) => VisitedItems(items)
    case Object(fields) => VisitedFields(fields)
    case _ => 0
  }

  function VisitedItems(items: seq<Value>): nat
    decreases items
  {
    if |items| == 0 then 0 else Max(1 + Visited(items[0]), VisitedItems(items[1..]))
  }

  function VisitedFields(fields: seq<Field>): nat
    decreases fields
  {
    if |fields| == 0 then 0 else Max(1 + Visited(fields[0].value), VisitedFields(fields[1..]))
  }

  lemma {:induction false} VisitedWithinNesting(t: Text, v: Value)
    requires Reads(t, v)
    ensures Visited(v) <= Nesting(t)
    decreases t
  {
    match t {
      case Array(parts) => ItemsWithinNesting(parts, v.items);
      case Members(members) => FieldsWithinNesting(members, v.fields);
      case _ =>
    }
  }

  lemma {:induction false} ItemsWithinNesting(parts: seq<Text>, items: seq<Value>)
    requires |items| == |parts| && forall i :: 0 <= i < |parts| ==> Reads(parts[i], items[i])
    ensures VisitedItems(items) <= 1 + PartsNesting(parts)
    decreases parts
  {
    if |parts| > 0 {
      VisitedWithinNesting(parts[0], items[0]);
      ItemsWithinNesting(parts[1..], items[1..]);
    }
  }

  lemma {:induction false} FieldsWithinNesting(members: seq<Member>, fields: seq<Field>)
    requires |fields| == |members| && forall i :: 0 <= i < |members| ==> Reads(members[i].part, fields[i].value)
    ensures VisitedFields(fields) <= 1 + MembersNesting(members)
    decreases members
  {
    if |members| > 0 {
      VisitedWithinNesting(members[0].part, fields[0].value);
      FieldsWithinNesting(members[1..], fields[1..]);
    }
  }

  /** A frame that passed the scanner can never fail the depth bound of the tree walk, however its strings were
      spelled. */
  lemma {:induction false} FrameBoundsVisits(members: seq<Member>, maximum: nat, v: Value)
    requires TextOk(Members(members)) && FrameOk(Spell(Members(members)) + "\n", maximum) && Reads(Members(members), v)
    ensures Visited(v) <= DEPTH_LIMIT
  {
    FrameExactly(members, maximum);
    VisitedWithinNesting(Members(members), v);
  }
}
