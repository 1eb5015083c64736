/** A compact text is read in one way only, so the compact print determines the value. */
module JsonReading {
  import opened Counting
  import opened Json

  /** What may follow a part of a text. */
  ghost predicate Follows(rest: string) {
    |rest| == 0 || rest[0] == ',' || rest[0] == ']' || rest[0] == '}'
  }

  lemma {:induction false} BodyReads(a: string, b: string, rest: string, other: string)
    requires BodyOk(a) && BodyOk(b) && a + "\"" + rest == b + "\"" + other
    ensures a == b && rest == other
    decreases |a|
  {
    var s, t := a + "\"" + rest, b + "\"" + other;
    assert (|a| > 0 ==> s[0] == a[0]) && (|b| > 0 ==> t[0] == b[0]) && s[0] == t[0];
    if |a| == 0 {
      assert rest == s[1..] && other == t[1..];
    } else {
      var n := if a[0] == '\\' then 2 else 1;
      assert s[n..] == a[n..] + "\"" + rest && t[n..] == b[n..] + "\"" + other;
      assert n == 2 ==> s[1] == a[1] && t[1] == b[1];
      BodyReads(a[n..], b[n..], rest, other);
      assert a == a[..n] + a[n..] && b == b[..n] + b[n..];
    }
  }

  /** A word ends where a special character or nothing follows. */
  lemma {:induction false} WordReads(a: string, b: string, rest: string, other: string)
    requires WordOk(a) && WordOk(b) && Follows(rest) && Follows(other) && a + rest == b + other
    ensures a == b && rest == other
  {
    var s, t := a + rest, b + other;
    assert forall i :: 0 <= i < |a| ==> s[i] == a[i];
    assert forall i :: 0 <= i < |b| ==> t[i] == b[i];
    assert (|rest| > 0 ==> s[|a|] == rest[0]) && (|other| > 0 ==> t[|b|] == other[0]);
    assert s[..|a|] == a && t[..|b|] == b && s[|a|..] == rest && t[|b|..] == other;
  }

  /** The first character of a text tells its shape. */
  ghost function Shape(t: Text): int {
    match t case Word(_) => 0 case Literal(_) => 1 case Array(_) => 2 case Members(_) => 3
  }

  ghost function ShapeOf(c: char): int {
    if c == '"' then 1 else if c == '[' then 2 else if c == '{' then 3 else 0
  }

  lemma {:induction false} FirstTells(t: Text, rest: string)
    requires TextOk(t)
    ensures |Spell(t)| > 0 && (Spell(t) + rest)[0] == Spell(t)[0] && ShapeOf(Spell(t)[0]) == Shape(t)
            && Spell(t)[0] != ']'
  {
  }

  lemma {:induction false} SameShape(t: Text, u: Text, rest: string, other: string)
    requires TextOk(t) && TextOk(u) && Spell(t) + rest == Spell(u) + other
    ensures Shape(t) == Shape(u)
  {
    FirstTells(t, rest);
    FirstTells(u, other);
  }

  /** A text is read in one way only: where one text begins, it determines where it ends and what it is. */
  lemma {:induction false} TextReads(t: Text, u: Text, rest: string, other: string)
    requires TextOk(t) && TextOk(u) && Follows(rest) && Follows(other) && Spell(t) + rest == Spell(u) + other
    ensures t == u && rest == other
    decreases t
  {
    SameShape(t, u, rest, other);
    match t {
      case Word(chars) =>
        WordReads(chars, u.chars, rest, other);
      case Literal(body) =>
        Unquote(body, rest);
        Unquote(u.body, other);
        BodyReads(body, u.body, rest, other);
      case Array(parts) =>
        Unbracket("[", SpellParts(parts), "]", rest);
        Unbracket("[", SpellParts(u.parts), "]", other);
        PartsRead(parts, u.parts, rest, other);
      case Members(members) =>
        Unbracket("{", SpellMembers(members), "}", rest);
        Unbracket("{", SpellMembers(u.members), "}", other);
        MembersRead(members, u.members, rest, other);
    }
  }

  lemma {:induction false} Unbracket(open: string, inside: string, close: string, rest: string)
    requires |open| == 1
    ensures (open + inside + close + rest)[1..] == inside + close + rest
  {
  }

  lemma {:induction false} Unquote(body: string, rest: string)
    ensures ("\"" + body + "\"" + rest)[1..] == body + "\"" + rest
  {
  }

  /** What follows the first of several parts. */
  ghost function Tail(parts: seq<Text>, rest: string): string
    requires |parts| > 0
  {
    if |parts| == 1 then "]" + rest else "," + (SpellParts(parts[1..]) + "]" + rest)
  }

  lemma {:induction false} SplitParts(parts: seq<Text>, rest: string)
    requires |parts| > 0
    ensures SpellParts(parts) + "]" + rest == Spell(parts[0]) + Tail(parts, rest) && Follows(Tail(parts, rest))
    ensures Tail(parts, rest)[1..] == if |parts| == 1 then rest else SpellParts(parts[1..]) + "]" + rest
  {
  }

  lemma {:induction false} PartsRead(parts: seq<Text>, others: seq<Text>, rest: string, other: string)
    requires (forall i :: 0 <= i < |parts| ==> TextOk(parts[i]))
             && (forall i :: 0 <= i < |others| ==> TextOk(others[i]))
    requires SpellParts(parts) + "]" + rest == SpellParts(others) + "]" + other
    ensures parts == others && rest == other
    decreases parts
  {
    if |parts| == 0 || |others| == 0 {
      EmptyParts(parts, others, rest, other);
    } else {
      SplitParts(parts, rest);
      SplitParts(others, other);
      TextReads(parts[0], others[0], Tail(parts, rest), Tail(others, other));
      assert Tail(parts, rest)[0] == Tail(others, other)[0];
      if |parts| > 1 {
        PartsRead(parts[1..], others[1..], rest, other);
        FirstOff(parts);
        FirstOff(others);
      }
    }
  }

  lemma {:induction false} EmptyParts(parts: seq<Text>, others: seq<Text>, rest: string, other: string)
    requires (forall i :: 0 <= i < |parts| ==> TextOk(parts[i]))
             && (forall i :: 0 <= i < |others| ==> TextOk(others[i]))
    requires |parts| == 0 || |others| == 0
    requires SpellParts(parts) + "]" + rest == SpellParts(others) + "]" + other
    ensures parts == others && rest == other
  {
    if |parts| > 0 {
      SplitParts(parts, rest);
      FirstTells(parts[0], Tail(parts, rest));
    }
    if |others| > 0 {
      SplitParts(others, other);
      FirstTells(others[0], Tail(others, other));
    }
    assert ("" + "]" + rest)[1..] == rest && ("" + "]" + other)[1..] == other;
  }

  ghost function MemberTail(members: seq<Member>, rest: string): string
    requires |members| > 0
  {
    if |members| == 1 then "}" + rest else "," + (SpellMembers(members[1..]) + "}" + rest)
  }

  lemma {:induction false} SplitMembers(members: seq<Member>, rest: string)
    requires |members| > 0
    ensures SpellMembers(members) + "}" + rest == SpellMember(members[0]) + MemberTail(members, rest)
            && Follows(MemberTail(members, rest))
    ensures MemberTail(members, rest)[1..] == if |members| == 1 then rest else SpellMembers(members[1..]) + "}" + rest
  {
  }

  lemma {:induction false} MemberStart(m: Member, rest: string)
    ensures SpellMember(m) + rest == "\"" + m.name + "\"" + (":" + (Spell(m.part) + rest))
    ensures (SpellMember(m) + rest)[0] == '"'
    ensures (":" + (Spell(m.part) + rest))[1..] == Spell(m.part) + rest
  {
  }

  /** A member is read in one way only: its name ends at the closing quote, its value as a text. */
  lemma {:induction false} NameReads(m: Member, n: Member, rest: string, other: string)
    requires BodyOk(m.name) && BodyOk(n.name) && SpellMember(m) + rest == SpellMember(n) + other
    ensures m.name == n.name && Spell(m.part) + rest == Spell(n.part) + other
  {
    MemberStart(m, rest);
    MemberStart(n, other);
    Unquote(m.name, ":" + (Spell(m.part) + rest));
    Unquote(n.name, ":" + (Spell(n.part) + other));
    BodyReads(m.name, n.name, ":" + (Spell(m.part) + rest), ":" + (Spell(n.part) + other));
  }

  ghost predicate MembersOk(members: seq<Member>) {
    forall i :: 0 <= i < |members| ==> BodyOk(members[i].name) && TextOk(members[i].part)
  }

  lemma {:induction false} EmptyMembers(members: seq<Member>, others: seq<Member>, rest: string, other: string)
    requires |members| == 0 || |others| == 0
    requires SpellMembers(members) + "}" + rest == SpellMembers(others) + "}" + other
    ensures members == others && rest == other
  {
    if |members| > 0 {
      SplitMembers(members, rest);
      MemberStart(members[0], MemberTail(members, rest));
    }
    if |others| > 0 {
      SplitMembers(others, other);
      MemberStart(others[0], MemberTail(others, other));
    }
    assert ("" + "}" + rest)[1..] == rest && ("" + "}" + other)[1..] == other;
  }

  lemma {:induction false} MembersRead(members: seq<Member>, others: seq<Member>, rest: string, other: string)
    requires MembersOk(members) && MembersOk(others)
    requires SpellMembers(members) + "}" + rest == SpellMembers(others) + "}" + other
    ensures members == others && rest == other
    decreases members
  {
    if |members| == 0 || |others| == 0 {
      EmptyMembers(members, others, rest, other);
    } else {
      SplitMembers(members, rest);
      SplitMembers(others, other);
      NameReads(members[0], others[0], MemberTail(members, rest), MemberTail(others, other));
      TextReads(members[0].part, others[0].part, MemberTail(members, rest), MemberTail(others, other));
      assert MemberTail(members, rest)[0] == MemberTail(others, other)[0];
      if |members| > 1 {
        MembersRead(members[1..], others[1..], rest, other);
        FirstOff(members);
        FirstOff(others);
      }
    }
  }

  // ---- values -----------------------------------------------------------------------------------------------

  /** An escaped character is read in one way only. */
  lemma {:induction false} EscapeReads(c: Ascii, d: Ascii, rest: string, other: string)
    requires Escape(c) + rest == Escape(d) + other
    ensures c == d && rest == other
  {
    var s, t := Escape(c) + rest, Escape(d) + other;
    assert forall i :: 0 <= i < |Escape(c)| ==> s[i] == Escape(c)[i];
    assert forall i :: 0 <= i < |Escape(d)| ==> t[i] == Escape(d)[i];
    EscapesDiffer(c, d);
    assert s[|Escape(c)|..] == rest && t[|Escape(d)|..] == other;
  }

  /** The characters that are written as a code point. */
  predicate Coded(c: Ascii) {
    c as int == 127 || (c as int < 32 && c != '\n' && c != '\r' && c != '\t' && c as int != 8 && c as int != 12)
  }

  lemma {:induction false} HexReads(a: nat, b: nat)
    requires a < 16 && b < 16 && Hex(a) == Hex(b)
    ensures a == b
  {
    assert forall i, j :: 0 <= i < j < 16 ==> "0123456789abcdef"[i] != "0123456789abcdef"[j];
  }

  /** No escape is the beginning of another. */
  lemma {:induction false} EscapesDiffer(c: Ascii, d: Ascii)
    requires forall i :: 0 <= i < |Escape(c)| && i < |Escape(d)| ==> Escape(c)[i] == Escape(d)[i]
    ensures c == d
  {
    assert Escape(c)[0] == Escape(d)[0];
    if |Escape(c)| > 1 && |Escape(d)| > 1 {
      assert Escape(c)[1] == Escape(d)[1];
      if Coded(c) && Coded(d) {
        assert Escape(c)[4] == Escape(d)[4] && Escape(c)[5] == Escape(d)[5];
        HexReads(c as int / 16, d as int / 16);
        HexReads(c as int % 16, d as int % 16);
        assert c as int == d as int;
      }
    }
  }

  /** Every escape is a piece of a literal, and starts no end of it. */
  lemma {:induction false} EscapeShape(c: Ascii)
    ensures |Escape(c)| > 0 && Escape(c)[0] != '"'
    ensures Escape(c)[0] == '\\' <==> |Escape(c)| > 1
    ensures |Escape(c)| > 2 ==> |Escape(c)| == 6 && forall i :: 2 <= i < 6 ==>
            Escape(c)[i] != '"' && Escape(c)[i] != '\\'
  {
    if Coded(c) {
      var h, l := c as int / 16, c as int % 16;
      assert Escape(c) == "\\u00" + [Hex(h), Hex(l)];
      assert forall i :: 0 <= i < 16 ==> "0123456789abcdef"[i] != '"' && "0123456789abcdef"[i] != '\\';
    }
  }

  lemma {:induction false} PlainBody(plain: string, rest: string)
    requires BodyOk(rest) && forall i :: 0 <= i < |plain| ==> plain[i] != '"' && plain[i] != '\\'
    ensures BodyOk(plain + rest)
  {
    if |plain| > 0 {
      PlainBody(plain[1..], rest);
      assert (plain + rest)[1..] == plain[1..] + rest;
    } else {
      assert plain + rest == rest;
    }
  }

  lemma {:induction false} EscapedBody(s: seq<Ascii>)
    ensures BodyOk(EscapeAll(s))
  {
    if |s| > 0 {
      EscapedBody(s[1..]);
      var e, rest := Escape(s[0]), EscapeAll(s[1..]);
      EscapeShape(s[0]);
      if e[0] == '\\' {
        PlainBody(e[2..], rest);
        assert (e + rest)[2..] == e[2..] + rest;
      } else {
        assert (e + rest)[1..] == rest;
      }
    }
  }

  lemma {:induction false} EscapesRead(s: seq<Ascii>, t: seq<Ascii>)
    requires EscapeAll(s) == EscapeAll(t)
    ensures s == t
    decreases |s|
  {
    if |s| > 0 {
      EscapeShape(s[0]);
    }
    if |t| > 0 {
      EscapeShape(t[0]);
    }
    if |s| > 0 && |t| > 0 {
      EscapeReads(s[0], t[0], EscapeAll(s[1..]), EscapeAll(t[1..]));
      EscapesRead(s[1..], t[1..]);
      assert s == [s[0]] + s[1..] && t == [t[0]] + t[1..];
    }
  }

  lemma {:induction false} DecimalDigits(n: nat)
    ensures |Decimal(n)| > 0 && forall i :: 0 <= i < |Decimal(n)| ==> '0' <= Decimal(n)[i] <= '9'
  {
    assert forall d :: 0 <= d < 10 ==> '0' <= "0123456789"[d] <= '9';
    if n >= 10 {
      DecimalDigits(n / 10);
    }
  }

  lemma {:induction false} DecimalReads(m: nat, n: nat)
    requires Decimal(m) == Decimal(n)
    ensures m == n
    decreases m
  {
    assert forall i, j :: 0 <= i < j < 10 ==> "0123456789"[i] != "0123456789"[j];
    DecimalDigits(m / 10);
    DecimalDigits(n / 10);
    var a, b := Decimal(m), Decimal(n);
    assert a[|a| - 1] == Digit(m % 10) && b[|b| - 1] == Digit(n % 10);
    if m >= 10 && n >= 10 {
      assert a[..|a| - 1] == Decimal(m / 10) && b[..|b| - 1] == Decimal(n / 10);
      DecimalReads(m / 10, n / 10);
    }
  }

  lemma {:induction false} NumberWord(number: int)
    ensures WordOk(Numeral(number)) && (Numeral(number)[0] == '-' <==> number < 0)
    ensures Numeral(number)[0] != 'n' && Numeral(number)[0] != 't' && Numeral(number)[0] != 'f'
  {
    DecimalDigits(if number < 0 then -number else number);
  }

  lemma {:induction false} NegativesRead(m: nat, n: nat)
    requires "-" + Decimal(m) == "-" + Decimal(n)
    ensures m == n
  {
    assert ("-" + Decimal(m))[1..] == Decimal(m) && ("-" + Decimal(n))[1..] == Decimal(n);
    DecimalReads(m, n);
  }

  lemma {:induction false} NumbersRead(a: int, b: int)
    requires Numeral(a) == Numeral(b)
    ensures a == b
  {
    NumberWord(a);
    NumberWord(b);
    if a < 0 {
      NegativesRead(-a, -b);
    } else {
      DecimalReads(a, b);
    }
  }

  lemma {:induction false} WrittenOk(v: Value)
    ensures TextOk(Write(v))
    decreases v
  {
    match v {
      case Null =>
      case Bool(_) =>
      case Int(number) => NumberWord(number);
      case Str(text) => EscapedBody(text);
      case List(items) =>
        forall i | 0 <= i < |items| ensures TextOk(Write(items[i])) {
          WrittenOk(items[i]);
        }
      case Object(fields) =>
        forall i | 0 <= i < |fields| ensures BodyOk(EscapeAll(fields[i].key)) && TextOk(Write(fields[i].value)) {
          EscapedBody(fields[i].key);
          WrittenOk(fields[i].value);
        }
    }
  }

  /** A written text is that of one value only. */
  lemma {:induction false} WritesDiffer(v: Value, w: Value)
    requires Write(v) == Write(w)
    ensures v == w
    decreases v
  {
    match v {
      case Null =>
        if w.Int? { NumberWord(w.number); }
      case Bool(_) =>
        if w.Int? { NumberWord(w.number); }
      case Int(number) =>
        NumberWord(number);
        if w.Int? { NumbersRead(number, w.number); }
      case Str(text) =>
        EscapesRead(text, w.text);
      case List(items) =>
        ItemsDiffer(items, w.items);
      case Object(fields) =>
        FieldsDiffer(fields, w.fields);
    }
  }

  lemma {:induction false} ItemsDiffer(items: seq<Value>, others: seq<Value>)
    requires WriteItems(items) == WriteItems(others)
    ensures items == others
    decreases items
  {
    assert |items| == |others|;
    forall i | 0 <= i < |items| ensures items[i] == others[i] {
      assert Write(items[i]) == WriteItems(items)[i] == Write(others[i]);
      WritesDiffer(items[i], others[i]);
    }
  }

  lemma {:induction false} FieldsDiffer(fields: seq<Field>, others: seq<Field>)
    requires WriteFields(fields) == WriteFields(others)
    ensures fields == others
    decreases fields
  {
    assert |fields| == |others|;
    forall i | 0 <= i < |fields| ensures fields[i] == others[i] {
      assert WriteFields(fields)[i] == WriteFields(others)[i];
      EscapesRead(fields[i].key, others[i].key);
      WritesDiffer(fields[i].value, others[i].value);
    }
  }

  /** The compact print determines the value, fields in their order. */
  lemma {:induction false} PrintReads(v: Value, w: Value)
    requires Print(v) == Print(w)
    ensures v == w
  {
    WrittenOk(v);
    WrittenOk(w);
    assert Print(v) + "" == Print(w) + "";
    TextReads(Write(v), Write(w), "", "");
    WritesDiffer(v, w);
  }
}
