/** Every compact spelling of a JSON value, not only the canonical one: which of them the scanner lets pass. */
module JsonSpelling {
  import opened Json
  import opened JsonFrame
  import opened JsonFrameLaws
  import R = JsonReading

  /** The one ASCII character that section 7 of RFC 8259 lets stand unescaped and the scanner refuses. */
  const DEL: char := 127 as char

  /** The value of a hexadecimal digit of either case; -1 for any other character. */
  function HexValue(c: char): int {
    if '0' <= c <= '9' then c as int - '0' as int
    else if 'a' <= c <= 'f' then c as int - 'a' as int + 10
    else if 'A' <= c <= 'F' then c as int - 'A' as int + 10
    else -1
  }

  /** The code of the character that a two-character escape stands for; -1 for no such escape. */
  function Short(c: char): int {
    if c == '"' || c == '\\' || c == '/' then c as int
    else if c == 'b' then 8 else if c == 'f' then 12 else if c == 'n' then 10 else if c == 'r' then 13
    else if c == 't' then 9 else -1
  }

  /** How a character may stand inside a literal: itself, a two-character escape, or its code point. */
  ghost predicate Stands(piece: string, c: Ascii) {
    if |piece| == 1 then piece[0] == c && c as int >= 32 && c != '"' && c != '\\'
    else if |piece| == 2 then piece[0] == '\\' && Short(piece[1]) == c as int
    else |piece| == 6 && piece[..4] == "\\u00" && HexValue(piece[4]) >= 0 && HexValue(piece[5]) >= 0
         && 16 * HexValue(piece[4]) + HexValue(piece[5]) == c as int
  }

  /** The inside of a literal that spells the string, each character in one of its ways. */
  ghost predicate SpellsString(body: string, s: seq<Ascii>)
    decreases |s|
  {
    if |s| == 0 then body == "" else
      exists n :: 0 < n <= |body| && Stands(body[..n], s[0]) && SpellsString(body[n..], s[1..])
  }

  ghost predicate Spells(t: Text, v: Value)
    decreases t
  {
    match t
    case Word(_) => (v.Null? || v.Bool? || v.Int?) && t == Write(v)
    case Literal(body) => v.Str? && SpellsString(body, v.text)
    case Array(parts) => v.List? && |v.items| == |parts| && forall i :: 0 <= i < |parts| ==>
      Spells(parts[i], v.items[i])
    case Members(members) =>
      v.Object? && |v.fields| == |members|
      && forall i :: 0 <= i < |members| ==>
         SpellsString(members[i].name, v.fields[i].key)
         && Spells(members[i].part, v.fields[i].value)
  }

  /** No literal of the text holds DEL as itself. */
  ghost predicate NoRawDel(t: Text)
    decreases t
  {
    match t
    case Word(_) => true
    case Literal(body) => DEL !in body
    case Array(parts) => forall i :: 0 <= i < |parts| ==> NoRawDel(parts[i])
    case Members(members) => forall i :: 0 <= i < |members| ==> DEL !in members[i].name && NoRawDel(members[i].part)
  }

  /** No string of the value holds DEL. */
  ghost predicate FreeOfDel(v: Value)
    decreases v
  {
    match v
    case Str(text) => DEL !in text
    case List(items) => forall i :: 0 <= i < |items| ==> FreeOfDel(items[i])
    case Object(fields) => forall i :: 0 <= i < |fields| ==> DEL !in fields[i].key && FreeOfDel(fields[i].value)
    case _ => true
  }

  /** A piece ends no literal, and it is printable unless it is DEL itself. */
  lemma {:induction false} PieceShape(piece: string, c: Ascii, rest: string)
    requires Stands(piece, c) && BodyOk(rest)
    ensures BodyOk(piece + rest)
    ensures AllPrintable(piece) <==> DEL !in piece
    ensures DEL in piece ==> c == DEL
  {
    if |piece| == 1 {
      assert (piece + rest)[1..] == rest;
      assert piece == [c];
    } else {
      assert (piece + rest)[2..] == piece[2..] + rest;
      assert |piece| == 6 ==> piece[0] == '\\' && piece[1] == 'u' && piece[2] == '0' && piece[3] == '0';
      R.PlainBody(piece[2..], rest);
      assert AllPrintable(piece);
    }
  }

  lemma {:induction false} SpelledBody(body: string, s: seq<Ascii>)
    requires SpellsString(body, s)
    ensures BodyOk(body)
    ensures AllPrintable(body) <==> DEL !in body
    ensures DEL !in s ==> DEL !in body
    decreases |s|
  {
    if |s| > 0 {
      var n :| 0 < n <= |body| && Stands(body[..n], s[0]) && SpellsString(body[n..], s[1..]);
      SpelledBody(body[n..], s[1..]);
      PieceShape(body[..n], s[0], body[n..]);
      assert body == body[..n] + body[n..];
    }
  }

  /** Any spelling is a readable text, and it is clean exactly when DEL never stands as itself. */
  lemma {:induction false} SpelledText(t: Text, v: Value)
    requires Spells(t, v)
    ensures TextOk(t)
    ensures Clean(t) <==> NoRawDel(t)
    ensures FreeOfDel(v) ==> NoRawDel(t)
    decreases t
  {
    match t {
      case Word(_) =>
        R.WrittenOk(v);
        PrintClean(v);
      case Literal(body) => SpelledBody(body, v.text);
      case Array(parts) =>
        forall i | 0 <= i < |parts| ensures TextOk(parts[i]) && (Clean(parts[i]) <==> NoRawDel(parts[i]))
          && (FreeOfDel(v.items[i]) ==> NoRawDel(parts[i])) {
          SpelledText(parts[i], v.items[i]);
        }
      case Members(members) =>
        forall i | 0 <= i < |members|
          ensures BodyOk(members[i].name) && (AllPrintable(members[i].name) <==> DEL !in members[i].name)
          ensures DEL !in v.fields[i].key ==> DEL !in members[i].name
          ensures TextOk(members[i].part) && (Clean(members[i].part) <==> NoRawDel(members[i].part))
          ensures FreeOfDel(v.fields[i].value) ==> NoRawDel(members[i].part)
        {
          SpelledBody(members[i].name, v.fields[i].key);
          SpelledText(members[i].part, v.fields[i].value);
        }
    }
  }

  /** Whatever spelling a printer chooses, one object and its newline pass the scanner exactly when they fit,
      nest at most 32 deep and no DEL stands as itself; for a value free of DEL the choice of spelling cannot matter. */
  lemma {:induction false} SpelledFrame(members: seq<Member>, fields: seq<Field>, maximum: nat)
    requires Spells(Members(members), Object(fields))
    ensures var t := Members(members);
            var fits := |Spell(t)| + 1 <= maximum && Nesting(t) <= DEPTH_LIMIT;
            && (FrameOk(Spell(t) + "\n", maximum) <==> fits && NoRawDel(t))
            && (FreeOfDel(Object(fields)) ==> (FrameOk(Spell(t) + "\n", maximum) <==> fits))
  {
    SpelledText(Members(members), Object(fields));
    FrameExactly(members, maximum);
  }

  lemma {:induction false} SpellsReads(t: Text, v: Value)
    requires Spells(t, v)
    ensures Reads(t, v)
    decreases t
  {
    match t {
      case Array(parts) =>
        forall i | 0 <= i < |parts| ensures Reads(parts[i], v.items[i]) {
          SpellsReads(parts[i], v.items[i]);
        }
      case Members(members) =>
        forall i | 0 <= i < |members| ensures Reads(members[i].part, v.fields[i].value) {
          SpellsReads(members[i].part, v.fields[i].value);
        }
      case _ =>
    }
  }

  /** A spelling that passes the scanner is one the tree walk can visit to the bottom. */
  lemma {:induction false} SpelledVisits(members: seq<Member>, fields: seq<Field>, maximum: nat)
    requires Spells(Members(members), Object(fields)) && FrameOk(Spell(Members(members)) + "\n", maximum)
    ensures Visited(Object(fields)) <= DEPTH_LIMIT
  {
    SpelledText(Members(members), Object(fields));
    SpellsReads(Members(members), Object(fields));
    FrameBoundsVisits(members, maximum, Object(fields));
  }

  lemma {:induction false} EscapeStands(c: Ascii)
    ensures Stands(Escape(c), c)
  {
    if R.Coded(c) {
      var h, l := c as int / 16, c as int % 16;
      assert forall d :: 0 <= d < 16 ==> HexValue("0123456789abcdef"[d]) == d;
      assert Escape(c) == "\\u00" + [Hex(h), Hex(l)];
    }
  }

  lemma {:induction false} EscapesSpell(s: seq<Ascii>)
    ensures SpellsString(EscapeAll(s), s)
  {
    if |s| > 0 {
      var e, rest := Escape(s[0]), EscapeAll(s[1..]);
      EscapeStands(s[0]);
      EscapesSpell(s[1..]);
      assert (e + rest)[..|e|] == e && (e + rest)[|e|..] == rest;
    }
  }

  /** The canonical print is one of the spellings. */
  lemma {:induction false} WriteSpells(v: Value)
    ensures Spells(Write(v), v)
    decreases v
  {
    match v {
      case Str(text) => EscapesSpell(text);
      case List(items) =>
        forall i | 0 <= i < |items| ensures Spells(Write(items[i]), items[i]) {
          WriteSpells(items[i]);
        }
      case Object(fields) =>
        forall i | 0 <= i < |fields| ensures SpellsString(EscapeAll(fields[i].key), fields[i].key)
          && Spells(Write(fields[i].value), fields[i].value) {
          EscapesSpell(fields[i].key);
          WriteSpells(fields[i].value);
        }
      case _ =>
    }
  }

  /** The condition is needed: an object whose one string is a DEL, spelled as itself as section 7 allows, is refused
      by the scanner at any size, while its canonical print passes. */
  lemma {:induction false} RawDelRefused(maximum: nat)
    ensures var t, v := Members([Member("a", Literal([DEL]))]), Object([Field("a", Str([DEL]))]);
            && Spells(t, v) && !FrameOk(Spell(t) + "\n", maximum)
            && (maximum >= |Print(v)| + 1 ==> FrameOk(Print(v) + "\n", maximum))
  {
    var name, text: seq<Ascii> := "a", [DEL];
    assert SpellsString("a", name) by {
      assert "a"[..1] == "a" && "a"[1..] == "" && name[1..] == [];
      assert Stands("a"[..1], 'a');
    }
    assert SpellsString([DEL], text) by {
      assert [DEL][..1] == [DEL] && [DEL][1..] == "" && text[1..] == [];
      assert Stands([DEL][..1], DEL);
    }
    var part, field := Literal([DEL]), Field("a", Str([DEL]));
    assert Spells(part, field.value) && !NoRawDel(part);
    SpelledFrame([Member("a", part)], [field], maximum);
    PrintedFrame([field], maximum);
    assert Write(Object([field])).Members? && Nesting(Write(Object([field]))) == 1 by {
      var members := WriteFields([field]);
      assert members[0].part == Literal(EscapeAll([DEL])) && members[1..] == [];
      assert MembersNesting(members) == Max(Nesting(members[0].part), MembersNesting(members[1..]));
    }
  }
}
