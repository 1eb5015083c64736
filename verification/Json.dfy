/** JSON trees of ASCII text, and the compact texts that spell them. */
module Json {

  type Ascii = c: char | c as int < 128 witness 'a'

  datatype Value =
    | Null
    | Bool(truth: bool)
    | Int(number: int)
    | Str(text: seq<Ascii>)
    | List(items: seq<Value>)
    | Object(fields: seq<Field>)

  /** A dictionary keeps its fields in insertion order; its keys are distinct. */
  datatype Field = Field(key: seq<Ascii>, value: Value)

  // ---- compact texts -----------------------------------------------------------------------------------

  /** The shape of a compact text: words, string literals, and brackets around parts. */
  datatype Text =
    | Word(chars: string)
    | Literal(body: string)
    | Array(parts: seq<Text>)
    | Members(members: seq<Member>)

  datatype Member = Member(name: string, part: Text)

  function Spell(t: Text): (s: string)
    decreases t
  {
    match t
    case Word(chars) => chars
    case Literal(body) => "\"" + body + "\""
    case Array(parts) => "[" + SpellParts(parts) + "]"
    case Members(members) => "{" + SpellMembers(members) + "}"
  }

  function SpellParts(parts: seq<Text>): string
    decreases parts
  {
    if |parts| == 0 then "" else
      Spell(parts[0]) + (if |parts| == 1 then "" else "," + SpellParts(parts[1..]))
  }

  function SpellMember(m: Member): string
    decreases m
  {
    "\"" + m.name + "\":" + Spell(m.part)
  }

  function SpellMembers(members: seq<Member>): string
    decreases members
  {
    if |members| == 0 then "" else
      SpellMember(members[0]) + (if |members| == 1 then "" else "," + SpellMembers(members[1..]))
  }

  /** A character with a meaning of its own between the words of a text. */
  predicate Special(c: char) {
    c == '"' || c == ',' || c == ':' || c == '[' || c == ']' || c == '{' || c == '}'
  }

  ghost predicate WordOk(chars: string) {
    |chars| > 0 && forall i :: 0 <= i < |chars| ==> !Special(chars[i])
  }

  /** The inside of a literal: quotes and a last backslash are escaped. */
  predicate BodyOk(body: string) {
    |body| == 0
    || (if body[0] == '\\' then |body| >= 2 && BodyOk(body[2..]) else body[0] != '"' && BodyOk(body[1..]))
  }

  ghost predicate TextOk(t: Text) {
    match t
    case Word(chars) => WordOk(chars)
    case Literal(body) => BodyOk(body)
    case Array(parts) => forall i :: 0 <= i < |parts| ==> TextOk(parts[i])
    case Members(members) => forall i :: 0 <= i < |members| ==> BodyOk(members[i].name) && TextOk(members[i].part)
  }

  // ---- writing values --------------------------------------------------------------------------------------

  function Digit(d: nat): char
    requires d < 10
  {
    "0123456789"[d]
  }

  function Decimal(n: nat): string {
    if n < 10 then [Digit(n)] else Decimal(n / 10) + [Digit(n % 10)]
  }

  function Numeral(number: int): string {
    if number < 0 then "-" + Decimal(-number) else Decimal(number)
  }

  function Hex(d: nat): char
    requires d < 16
  {
    "0123456789abcdef"[d]
  }

  /** How a character stands inside a literal: short escapes, `\\u00xx` for other unprintable ones, itself. */
  function Escape(c: Ascii): string {
    if c == '"' then "\\\"" else if c == '\\' then "\\\\"
    else if c == '\n' then "\\n" else if c == '\r' then "\\r" else if c == '\t' then "\\t"
    else if c as int == 8 then "\\b" else if c as int == 12 then "\\f"
    else if c as int < 32 || c as int == 127 then "\\u00" + [Hex(c as int / 16), Hex(c as int % 16)]
    else [c]
  }

  function EscapeAll(s: seq<Ascii>): string {
    if |s| == 0 then "" else Escape(s[0]) + EscapeAll(s[1..])
  }

  function Write(v: Value): Text
    decreases v
  {
    match v
    case Null => Word("null")
    case Bool(truth) => Word(if truth then "true" else "false")
    case Int(number) => Word(Numeral(number))
    case Str(text) => Literal(EscapeAll(text))
    case List(items) => Array(WriteItems(items))
    case Object(fields) => Members(WriteFields(fields))
  }

  function WriteItems(items: seq<Value>): (parts: seq<Text>)
    ensures |parts| == |items| && forall i :: 0 <= i < |items| ==> parts[i] == Write(items[i])
    decreases items
  {
    if |items| == 0 then [] else [Write(items[0])] + WriteItems(items[1..])
  }

  function WriteFields(fields: seq<Field>): (members: seq<Member>)
    ensures |members| == |fields|
    ensures forall i :: 0 <= i < |fields| ==> members[i] == Member(EscapeAll(fields[i].key), Write(fields[i].value))
    decreases fields
  {
    if |fields| == 0 then [] else [Member(EscapeAll(fields[0].key), Write(fields[0].value))] + WriteFields(fields[1..])
  }

  /** The compact print of a value, fields in insertion order. */
  function Print(v: Value): string {
    Spell(Write(v))
  }
}
