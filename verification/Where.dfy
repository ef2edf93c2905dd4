/** Building WHERE clauses from search text: normalization, quoting and rendering. */
module Where {
  import opened Wrappers

  /** The character classes and the case mapping the printer relies on. */
  datatype Alphabet = Alphabet(word: char -> bool, space: char -> bool, upper: char -> string)

  const PUNCTUATION: string := "-.,'&/#№()"

  /** A space is white space; upper-casing keeps a percent sign and turns no allowed character into a
      wildcard. */
  ghost predicate Sensible(a: Alphabet) {
    a.space(' ') && a.upper('%') == "%"
    && (forall c :: Allowed(a, c) ==> '%' !in a.upper(c) && '_' !in a.upper(c))
  }

  // ---- Normalization -------------------------------------------------------------------------------

  predicate Allowed(a: Alphabet, c: char) {
    (a.word(c) || a.space(c) || c in PUNCTUATION) && c != '_'
  }

  function Cleaned(a: Alphabet, text: string): (r: string)
    ensures |r| == |text| && forall i :: 0 <= i < |r| ==> r[i] == if Allowed(a, text[i]) then text[i] else ' '
  {
    seq(|text|, i requires 0 <= i < |text| => if Allowed(a, text[i]) then text[i] else ' ')
  }

  /** Letters, digits, white space and some punctuation are kept; everything else, and the underscore, becomes a
      space. */
  lemma KeptCharacters(a: Alphabet, text: string, i: nat)
    requires i < |text|
    ensures var c := text[i];
            Cleaned(a, text)[i]
            == if c != '_' && (a.word(c) || a.space(c) || c in "-.,'&/#№()") then c else ' '
  {
  }

  /** Runs of white space become one space; `inRun` says whether the text follows such a run. */
  function Squeezed(a: Alphabet, text: string, inRun: bool): string {
    if text == "" then ""
    else if a.space(text[0]) then (if inRun then "" else " ") + Squeezed(a, text[1..], true)
    else [text[0]] + Squeezed(a, text[1..], false)
  }

  function StripLeft(a: Alphabet, text: string): string {
    if text != "" && a.space(text[0]) then StripLeft(a, text[1..]) else text
  }

  function StripRight(a: Alphabet, text: string): string {
    if text != "" && a.space(text[|text| - 1]) then StripRight(a, text[..|text| - 1]) else text
  }

  function NormalizeSearchText(a: Alphabet, text: string): string {
    StripRight(a, StripLeft(a, Squeezed(a, Cleaned(a, text), false)))
  }

  // ---- Rendering -----------------------------------------------------------------------------------

  predicate NameStart(c: char) {
    'A' <= c <= 'Z' || 'a' <= c <= 'z' || c == '_'
  }

  predicate NameChar(c: char) {
    NameStart(c) || '0' <= c <= '9' || c == '.'
  }

  predicate FieldName(name: string) {
    name != "" && NameStart(name[0]) && forall i :: 0 <= i < |name| ==> NameChar(name[i])
  }

  function ValidateFieldName(name: string): Result<string, string> {
    if FieldName(name) then Success(name) else Failure(name)
  }

  function Doubled(value: string): string {
    if value == "" then "" else (if value[0] == '\'' then "''" else [value[0]]) + Doubled(value[1..])
  }

  function SqlLiteral(value: string): string {
    "'" + Doubled(value) + "'"
  }

  function Upper(a: Alphabet, text: string): string {
    if text == "" then "" else a.upper(text[0]) + Upper(a, text[1..])
  }

  function UpperLike(a: Alphabet, field: string, pattern: string): Result<string, string> {
    match ValidateFieldName(field)
    case Failure(e) => Failure(e)
    case Success(f) => Success("UPPER(" + f + ") LIKE " + SqlLiteral(Upper(a, pattern)))
  }

  function Join(separator: string, parts: seq<string>): string {
    if parts == [] then ""
    else if |parts| == 1 then parts[0]
    else parts[0] + separator + Join(separator, parts[1..])
  }

  /** A generator over fields: the first failure is raised. */
  function EachField(a: Alphabet, fields: seq<string>, pattern: string): Result<seq<string>, string> {
    if fields == [] then Success([])
    else match UpperLike(a, fields[0], pattern)
      case Failure(e) => Failure(e)
      case Success(first) =>
        match EachField(a, fields[1..], pattern)
        case Failure(e) => Failure(e)
        case Success(rest) => Success([first] + rest)
  }

  function AnyFieldLike(a: Alphabet, fields: seq<string>, pattern: string): Result<string, string> {
    match EachField(a, fields, pattern)
    case Failure(e) => Failure(e)
    case Success(parts) => Success("(" + Join(" OR ", parts) + ")")
  }

  function PrefixClause(a: Alphabet, fields: seq<string>, text: string): Result<string, string> {
    AnyFieldLike(a, fields, text + "%")
  }

  function EachToken(a: Alphabet, fields: seq<string>, tokens: seq<string>): Result<seq<string>, string>
    decreases tokens
  {
    if tokens == [] then Success([])
    else match AnyFieldLike(a, fields, "%" + tokens[0] + "%")
      case Failure(e) => Failure(e)
      case Success(first) =>
        match EachToken(a, fields, tokens[1..])
        case Failure(e) => Failure(e)
        case Success(rest) => Success([first] + rest)
  }

  function ContainsAllTokensClause(a: Alphabet, fields: seq<string>, tokens: seq<string>): Result<string, string> {
    match EachToken(a, fields, tokens)
    case Failure(e) => Failure(e)
    case Success(parts) => Success(Join(" AND ", parts))
  }

  // ---- The search provider's tokens ------------------------------------------------------------------

  const MAX_SEARCH_TOKENS: nat := 8

  /** str.split(" ") */
  function Split(text: string): (r: seq<string>)
    ensures r != []
  {
    if text == "" then [""]
    else
      var rest := Split(text[1..]);
      if text[0] == ' ' then [""] + rest else [[text[0]] + rest[0]] + rest[1..]
  }

  /** The different words, in the order of their first occurrence. */
  function Unique(words: seq<string>): (r: seq<string>)
    ensures forall w :: w in r <==> w in words
  {
    if words == [] then []
    else
      var init, last := words[..|words| - 1], words[|words| - 1];
      assert words == init + [last];
      if last in init then Unique(init) else Unique(init) + [last]
  }

  function SearchTokens(normalized: string): seq<string> {
    var words := Unique(Split(normalized));
    if |words| <= MAX_SEARCH_TOKENS then words else words[..MAX_SEARCH_TOKENS]
  }

  // ---- What normalization keeps ----------------------------------------------------------------------

  /** The maximal runs of characters that are not white space. */
  function Words(a: Alphabet, text: string): seq<string>
    decreases |text|
  {
    if text == "" then []
    else if a.space(text[0]) then Words(a, text[1..])
    else if |text| == 1 || a.space(text[1]) then [[text[0]]] + Words(a, text[1..])
    else
      var rest := Words(a, text[1..]);
      if rest == [] then [[text[0]]] else [[text[0]] + rest[0]] + rest[1..]
  }

  lemma {:induction false} WordsStart(a: Alphabet, text: string)
    requires text != "" && !a.space(text[0])
    ensures Words(a, text) != [] && Words(a, text)[0] != "" && Words(a, text)[0][0] == text[0]
  {
    if |text| > 1 && !a.space(text[1]) {
      WordsStart(a, text[1..]);
    }
  }

  /** Normalized text is the words of the cleaned text with single spaces between them. */
  lemma NormalizedIsItsWords(a: Alphabet, text: string)
    requires a.space(' ')
    ensures NormalizeSearchText(a, text) == Join(" ", Words(a, Cleaned(a, text)))
  {
    var s := Cleaned(a, text);
    SqueezedIsJoined(a, s);
    var words := Words(a, s);
    WordsAreSolid(a, s);
    StripPadded(a, words, StartsBlank(a, s), EndsBlank(a, s));
  }

  function Padded(words: seq<string>, before: bool, after: bool): string {
    if words == [] then (if before || after then " " else "")
    else (if before then " " else "") + Join(" ", words) + if after then " " else ""
  }

  lemma {:induction false} NoWords(a: Alphabet, s: string)
    requires Words(a, s) == [] && s != ""
    ensures a.space(s[|s| - 1])
    decreases |s|
  {
    if |s| > 1 {
      if !a.space(s[0]) { WordsStart(a, s); }
      NoWords(a, s[1..]);
    }
  }

  predicate StartsBlank(a: Alphabet, s: string) {
    s != "" && a.space(s[0])
  }

  predicate EndsBlank(a: Alphabet, s: string) {
    s != "" && a.space(s[|s| - 1])
  }

  /** A word of one character before a run of white space, and one more character before a word. */
  lemma PadWord(c: char, rest: seq<string>, after: bool)
    requires rest == [] ==> after
    ensures [c] + Padded(rest, true, after) == Padded([[c]] + rest, false, after)
  {
    var words := [[c]] + rest;
    if rest != [] {
      var j, e := Join(" ", rest), if after then " " else "";
      assert words[0] == [c] && words[1..] == rest;
      assert Join(" ", words) == [c] + " " + j;
      hide Join;
      assert Padded(words, false, after) == "" + ([c] + " " + j) + e;
      assert [c] + (" " + j + e) == "" + ([c] + " " + j) + e;
    }
  }

  lemma JoinPrepend(separator: string, x: string, parts: seq<string>)
    requires parts != []
    ensures Join(separator, [x + parts[0]] + parts[1..]) == x + Join(separator, parts)
  {
    var longer := [x + parts[0]] + parts[1..];
    assert longer[1..] == parts[1..];
  }

  lemma PadLonger(c: char, words: seq<string>, after: bool)
    requires words != []
    ensures [c] + Padded(words, false, after) == Padded([[c] + words[0]] + words[1..], false, after)
  {
    JoinPrepend(" ", [c], words);
    var j, e := Join(" ", words), if after then " " else "";
    hide Join;
    assert Padded(words, false, after) == "" + j + e == j + e;
    assert [c] + (j + e) == "" + ([c] + j) + e;
  }

  ghost predicate Joined(a: Alphabet, s: string) {
    var words := Words(a, s);
    Squeezed(a, s, false) == Padded(words, StartsBlank(a, s), EndsBlank(a, s))
    && Squeezed(a, s, true) == if words == [] then "" else Padded(words, false, EndsBlank(a, s))
  }

  lemma {:induction false} SqueezedIsJoined(a: Alphabet, s: string)
    requires a.space(' ')
    ensures Joined(a, s)
  {
    if s != "" {
      SqueezedIsJoined(a, s[1..]);
      if a.space(s[0]) {
        JoinedBlank(a, s);
      } else if |s| > 1 {
        JoinedWord(a, s);
      }
    }
  }

  lemma PadFront(words: seq<string>, after: bool)
    ensures Padded(words, true, after) == " " + if words == [] then "" else Padded(words, false, after)
  {
    if words != [] {
      var j, e := Join(" ", words), if after then " " else "";
      hide Join;
      assert Padded(words, false, after) == "" + j + e == j + e;
      assert Padded(words, true, after) == " " + j + e == " " + (j + e);
    }
  }

  lemma BlankFirst(a: Alphabet, s: string)
    requires StartsBlank(a, s)
    ensures Words(a, s) == Words(a, s[1..])
    ensures Squeezed(a, s, false) == " " + Squeezed(a, s[1..], true)
    ensures Squeezed(a, s, true) == Squeezed(a, s[1..], true)
    ensures s[1..] != "" ==> EndsBlank(a, s[1..]) == EndsBlank(a, s)
  {
  }

  lemma JoinedBlank(a: Alphabet, s: string)
    requires StartsBlank(a, s) && Joined(a, s[1..])
    ensures Joined(a, s)
  {
    BlankFirst(a, s);
    PadFront(Words(a, s), EndsBlank(a, s));
    if s[1..] == "" {
      assert Words(a, s) == [];
    }
    hide Words, Squeezed, Padded;
  }

  lemma JoinedWord(a: Alphabet, s: string)
    requires |s| > 1 && !a.space(s[0]) && Joined(a, s[1..])
    ensures Joined(a, s)
  {
    hide Padded;
    var t, c := s[1..], s[0];
    var rest := Words(a, t);
    assert EndsBlank(a, t) == EndsBlank(a, s);
    assert Squeezed(a, s, false) == [c] + Squeezed(a, t, false) == Squeezed(a, s, true);
    if a.space(t[0]) {
      if rest == [] { NoWords(a, t); }
      PadWord(c, rest, EndsBlank(a, s));
    } else {
      WordsStart(a, t);
      PadLonger(c, rest, EndsBlank(a, s));
    }
  }

  /** A word is not empty and has no white space. */
  ghost predicate Solid(a: Alphabet, words: seq<string>) {
    forall w :: w in words ==> w != "" && forall i :: 0 <= i < |w| ==> !a.space(w[i])
  }

  lemma {:induction false} WordsAreSolid(a: Alphabet, s: string)
    ensures Solid(a, Words(a, s))
    decreases |s|
  {
    if s != "" {
      WordsAreSolid(a, s[1..]);
    }
  }

  lemma {:induction false} JoinSolid(a: Alphabet, words: seq<string>)
    requires Solid(a, words) && words != []
    ensures var j := Join(" ", words); j != "" && !a.space(j[0]) && !a.space(j[|j| - 1])
  {
    assert words[0] in words;
    if |words| > 1 {
      JoinSolid(a, words[1..]);
    }
  }

  lemma LeftEdge(a: Alphabet, t: string, before: bool)
    requires a.space(' ') && t != "" && !a.space(t[0])
    ensures StripLeft(a, (if before then " " else "") + t) == t
  {
    assert StripLeft(a, t) == t;
    assert (" " + t)[1..] == t && "" + t == t;
  }

  lemma RightEdge(a: Alphabet, t: string, after: bool)
    requires a.space(' ') && t != "" && !a.space(t[|t| - 1])
    ensures StripRight(a, t + if after then " " else "") == t
  {
    assert StripRight(a, t) == t;
    assert (t + " ")[..|t|] == t && t + "" == t;
  }

  lemma StripEdges(a: Alphabet, j: string, before: bool, after: bool)
    requires a.space(' ') && j != "" && !a.space(j[0]) && !a.space(j[|j| - 1])
    ensures StripRight(a, StripLeft(a, (if before then " " else "") + j + if after then " " else "")) == j
  {
    hide StripLeft, StripRight;
    var b, e := if before then " " else "", if after then " " else "";
    assert b + j + e == b + (j + e);
    LeftEdge(a, j + e, before);
    RightEdge(a, j, after);
  }

  lemma StripPadded(a: Alphabet, words: seq<string>, before: bool, after: bool)
    requires a.space(' ') && Solid(a, words)
    ensures StripRight(a, StripLeft(a, Padded(words, before, after))) == Join(" ", words)
  {
    if words != [] {
      JoinSolid(a, words);
      hide Join, StripLeft, StripRight;
      StripEdges(a, Join(" ", words), before, after);
    }
  }
}
