/** A reader of SQL search conditions: character string literals (ISO/IEC 9075-2, section 5.3), the LIKE
    predicate without ESCAPE (section 8.5), AND and OR over three truth values. */
module SqlReader {
  import opened Wrappers

  // ---- Tokens --------------------------------------------------------------------------------------

  datatype Token = LParen | RParen | Word(name: string) | Str(value: string) | Junk(c: char)

  predicate WordChar(c: char) {
    'A' <= c <= 'Z' || 'a' <= c <= 'z' || c == '_' || '0' <= c <= '9' || c == '.'
  }

  function TakeWord(s: string): (w: string)
    ensures w <= s
  {
    if s != "" && WordChar(s[0]) then [s[0]] + TakeWord(s[1..]) else ""
  }

  /** The rest of a literal after its opening quote: its value, and the text after its closing quote. */
  function ReadString(s: string): (r: Option<(string, string)>)
    ensures r.Some? ==> |r.value.1| < |s|
  {
    if s == "" then None
    else if s[0] == '\'' then
      if |s| > 1 && s[1] == '\'' then
        match ReadString(s[2..])
        case None => None
        case Some(r) => Some(("'" + r.0, r.1))
      else Some(("", s[1..]))
    else
      match ReadString(s[1..])
      case None => None
      case Some(r) => Some(([s[0]] + r.0, r.1))
  }

  function Lex(s: string): seq<Token>
    decreases |s|
  {
    if s == "" then []
    else if s[0] == ' ' then Lex(s[1..])
    else if s[0] == '(' then [LParen] + Lex(s[1..])
    else if s[0] == ')' then [RParen] + Lex(s[1..])
    else if s[0] == '\'' then
      match ReadString(s[1..])
      case Some(r) => [Str(r.0)] + Lex(r.1)
      case None => [Junk('\'')] + Lex(s[1..])
    else if WordChar(s[0]) then
      var w := TakeWord(s);
      [Word(w)] + Lex(s[|w|..])
    else [Junk(s[0])] + Lex(s[1..])
  }

  // ---- Conditions ------------------------------------------------------------------------------------

  /** UPPER(field) LIKE pattern, and its combinations. */
  datatype Condition =
    | Like(field: string, pattern: string)
    | And(left: Condition, right: Condition)
    | Or(left: Condition, right: Condition)

  function AsciiUpper(s: string): (r: string)
    ensures |r| == |s|
  {
    if s == "" then "" else [if 'a' <= s[0] <= 'z' then (s[0] as int - 32) as char else s[0]] + AsciiUpper(s[1..])
  }

  /** Key words are recognized in any case. */
  predicate Is(t: Token, keyword: string) {
    t.Word? && AsciiUpper(t.name) == keyword
  }

  /** `reserved` holds the reader's reserved words, in capitals. */
  predicate Reserved(reserved: set<string>, name: string) {
    AsciiUpper(name) in reserved
  }

  predicate IsLike(reserved: set<string>, ts: seq<Token>) {
    |ts| >= 6 && Is(ts[0], "UPPER") && ts[1] == LParen && ts[2].Word? && !Reserved(reserved, ts[2].name)
    && ts[3] == RParen && Is(ts[4], "LIKE") && ts[5].Str?
  }

  type Parsed = Option<(Condition, seq<Token>)>

  predicate Shorter(p: Parsed, ts: seq<Token>) {
    p.Some? ==> |p.value.1| < |ts|
  }

  function ParsePrimary(reserved: set<string>, ts: seq<Token>): (p: Parsed)
    ensures Shorter(p, ts)
    decreases |ts|, 0
  {
    if ts != [] && ts[0] == LParen then
      match ParseOr(reserved, ts[1..])
      case None => None
      case Some(r) => if r.1 != [] && r.1[0] == RParen then Some((r.0, r.1[1..])) else None
    else if IsLike(reserved, ts) then Some((Like(ts[2].name, ts[5].value), ts[6..]))
    else None
  }

  function AndTail(reserved: set<string>, left: Condition, ts: seq<Token>): (p: Parsed)
    ensures p.Some? ==> |p.value.1| <= |ts|
    decreases |ts|, 1
  {
    if ts == [] || !Is(ts[0], "AND") then Some((left, ts))
    else match ParsePrimary(reserved, ts[1..])
      case None => None
      case Some(r) => AndTail(reserved, And(left, r.0), r.1)
  }

  function ParseAnd(reserved: set<string>, ts: seq<Token>): (p: Parsed)
    ensures Shorter(p, ts)
    decreases |ts|, 2
  {
    match ParsePrimary(reserved, ts)
    case None => None
    case Some(r) => AndTail(reserved, r.0, r.1)
  }

  function OrTail(reserved: set<string>, left: Condition, ts: seq<Token>): (p: Parsed)
    ensures p.Some? ==> |p.value.1| <= |ts|
    decreases |ts|, 3
  {
    if ts == [] || !Is(ts[0], "OR") then Some((left, ts))
    else match ParseAnd(reserved, ts[1..])
      case None => None
      case Some(r) => OrTail(reserved, Or(left, r.0), r.1)
  }

  /** OR binds less than AND. */
  function ParseOr(reserved: set<string>, ts: seq<Token>): (p: Parsed)
    ensures Shorter(p, ts)
    decreases |ts|, 4
  {
    match ParseAnd(reserved, ts)
    case None => None
    case Some(r) => OrTail(reserved, r.0, r.1)
  }

  function Read(reserved: set<string>, text: string): Option<Condition> {
    match ParseOr(reserved, Lex(text))
    case None => None
    case Some(r) => if r.1 == [] then Some(r.0) else None
  }

  // ---- Meaning ---------------------------------------------------------------------------------------

  datatype Truth = True | False | Unknown

  /** A percent sign stands for any text, an underscore for any character. */
  predicate Matches(text: string, pattern: string)
    decreases |pattern|
  {
    if pattern == "" then text == ""
    else if pattern[0] == '%' then exists i :: 0 <= i <= |text| && Matches(text[i..], pattern[1..])
    else text != "" && (pattern[0] == '_' || pattern[0] == text[0]) && Matches(text[1..], pattern[1..])
  }

  /** A record's fields, upper-cased; NULL where there is no value. */
  type Row = string -> Option<string>

  function Eval(c: Condition, row: Row): Truth {
    match c
    case Like(f, p) => if row(f).None? then Unknown else if Matches(row(f).value, p) then True else False
    case And(l, r) =>
      var x, y := Eval(l, row), Eval(r, row);
      if x == False || y == False then False else if x == True && y == True then True else Unknown
    case Or(l, r) =>
      var x, y := Eval(l, row), Eval(r, row);
      if x == True || y == True then True else if x == False && y == False then False else Unknown
  }
}
