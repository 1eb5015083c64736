/** The byte scanner in front of the outer capture: printable bytes, no space outside strings, brackets that
    close and nest at most 32 deep. */
module JsonFrame {
  import opened Wrappers

  const DEPTH_LIMIT: nat := 32

  datatype State = State(quoted: bool, escaped: bool, depth: nat)

  const START := State(false, false, 0)

  predicate Printable(c: char) {
    32 <= c as int <= 126
  }

  function ScanByte(s: State, c: char): Option<State> {
    if !Printable(c) then None
    else if s.quoted then
      Some(if s.escaped then s.(escaped := false) else if c == '\\' then s.(escaped := true)
           else if c == '"' then s.(quoted := false) else s)
    else if c == '"' then Some(s.(quoted := true))
    else if c == ' ' then None
    else if c == '[' || c == '{' then (if s.depth + 1 <= DEPTH_LIMIT then Some(s.(depth := s.depth + 1)) else None)
    else if c == ']' || c == '}' then (if s.depth > 0 then Some(s.(depth := s.depth - 1)) else None)
    else Some(s)
  }

  function Scan(s: State, text: string): Option<State>
    decreases |text|
  {
    if |text| == 0 then Some(s) else
      var next := ScanByte(s, text[0]);
      if next.None? then None else Scan(next.value, text[1..])
  }

  /** One object and a newline, as the scanner sees it. */
  predicate FrameOk(raw: string, maximum: nat) {
    && 1 < |raw| <= maximum && raw[0] == '{' && raw[|raw| - 1] == '\n'
    && Scan(START, raw[..|raw| - 1]) == Some(START)
  }

  /** The scanner's loop. */
  method Frame(raw: string, maximum: nat) returns (ok: bool)
    ensures ok == FrameOk(raw, maximum)
  {
    if !(1 < |raw| <= maximum && raw[0] == '{' && raw[|raw| - 1] == '\n') {
      return false;
    }
    var quoted, escaped, depth, index := false, false, 0, 0;
    ghost var text := raw[..|raw| - 1];
    while index < |raw| - 1
      invariant 0 <= index <= |text|
      invariant Scan(START, text) == Scan(State(quoted, escaped, depth), text[index..])
    {
      var byte := raw[index];
      assert text[index..][0] == byte && text[index..][1..] == text[index + 1..];
      if !Printable(byte) {
        return false;
      }
      if quoted {
        if escaped {
          escaped := false;
        } else if byte == '\\' {
          escaped := true;
        } else if byte == '"' {
          quoted := false;
        }
      } else if byte == '"' {
        quoted := true;
      } else {
        if byte == ' ' {
          return false;
        }
        if byte == '[' || byte == '{' {
          depth := depth + 1;
          if depth > DEPTH_LIMIT {
            return false;
          }
        } else if byte == ']' || byte == '}' {
          if depth == 0 {
            return false;
          }
          depth := depth - 1;
        }
      }
      index := index + 1;
    }
    ok := !quoted && !escaped && depth == 0;
  }
}
