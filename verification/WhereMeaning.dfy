/** What the rendered clauses mean to a reader of SQL. */
module WhereMeaning {
  import opened Wrappers
  import opened Where
  import opened SqlReader

  // ---- Literals and words ----------------------------------------------------------------------------

  /** Reading back a rendered literal gives the value it was rendered from. */
  lemma {:induction false} LiteralRoundTrip(value: string, rest: string)
    requires rest == "" || rest[0] != '\''
    ensures ReadString(Doubled(value) + "'" + rest) == Some((value, rest))
  {
    var s := Doubled(value) + "'" + rest;
    if value == "" {
      assert s == "'" + rest;
      assert s[1..] == rest;
    } else {
      LiteralRoundTrip(value[1..], rest);
      assert value == [value[0]] + value[1..];
      var t := Doubled(value[1..]) + "'" + rest;
      if value[0] == '\'' {
        assert s == "''" + t;
        assert s[2..] == t;
      } else {
        assert s == [value[0]] + t;
        assert s[1..] == t;
      }
    }
  }

  lemma LexLiteral(value: string, rest: string)
    requires rest == "" || rest[0] != '\''
    ensures Lex(SqlLiteral(value) + rest) == [Str(value)] + Lex(rest)
  {
    hide Lex, ReadString, Doubled;
    LiteralRoundTrip(value, rest);
    var s := SqlLiteral(value) + rest;
    assert s[1..] == Doubled(value) + "'" + rest;
    LexString(s, value, rest);
  }

  lemma LexString(s: string, value: string, rest: string)
    requires s != "" && s[0] == '\'' && ReadString(s[1..]) == Some((value, rest))
    ensures Lex(s) == [Str(value)] + Lex(rest)
  {
    hide ReadString;
  }

  ghost predicate AllWord(w: string) {
    w != "" && forall i :: 0 <= i < |w| ==> WordChar(w[i])
  }

  lemma {:induction false} TakesAll(w: string, rest: string)
    requires forall i :: 0 <= i < |w| ==> WordChar(w[i])
    requires rest == "" || !WordChar(rest[0])
    ensures TakeWord(w + rest) == w
  {
    if w == "" {
      assert w + rest == rest;
    } else {
      TakesAll(w[1..], rest);
      assert (w + rest)[1..] == w[1..] + rest;
    }
  }

  lemma LexWord(w: string, rest: string)
    requires AllWord(w) && (rest == "" || !WordChar(rest[0]))
    ensures Lex(w + rest) == [Word(w)] + Lex(rest)
  {
    TakesAll(w, rest);
    assert (w + rest)[|w|..] == rest;
  }

  lemma LexMark(c: char, rest: string)
    ensures c == ' ' ==> Lex([c] + rest) == Lex(rest)
    ensures c == '(' ==> Lex([c] + rest) == [LParen] + Lex(rest)
    ensures c == ')' ==> Lex([c] + rest) == [RParen] + Lex(rest)
  {
    assert ([c] + rest)[1..] == rest;
  }

  // ---- Tokens of the clauses -------------------------------------------------------------------------

  function LikeText(field: string, pattern: string): string {
    "UPPER(" + field + ") LIKE " + SqlLiteral(pattern)
  }

  function LikeTokens(field: string, pattern: string): seq<Token> {
    [Word("UPPER"), LParen, Word(field), RParen, Word("LIKE"), Str(pattern)]
  }

  lemma LexLike(field: string, pattern: string, rest: string)
    requires FieldName(field) && (rest == "" || rest[0] != '\'')
    ensures Lex(LikeText(field, pattern) + rest) == LikeTokens(field, pattern) + Lex(rest)
  {
    hide Lex, SqlLiteral;
    var lit := SqlLiteral(pattern) + rest;
    var like := " " + lit;
    var close := ") LIKE" + like;
    var name := field + close;
    assert LikeText(field, pattern) + rest == "UPPER" + ("(" + name);
    LexWord("UPPER", "(" + name);
    LexMark('(', name);
    LexWord(field, close);
    assert close == ")" + (" " + ("LIKE" + like));
    LexMark(')', " " + ("LIKE" + like));
    LexMark(' ', "LIKE" + like);
    LexWord("LIKE", like);
    LexMark(' ', lit);
    LexLiteral(pattern, rest);
  }

  /** The texts, or the tokens, of one comparison per field, each after the first preceded by OR. */
  function LikeTexts(fields: seq<string>, pattern: string): (r: seq<string>)
    ensures |r| == |fields| && forall i :: 0 <= i < |r| ==> r[i] == LikeText(fields[i], pattern)
  {
    seq(|fields|, i requires 0 <= i < |fields| => LikeText(fields[i], pattern))
  }

  function OrTokens(fields: seq<string>, pattern: string): seq<Token> {
    if fields == [] then [] else [Word("OR")] + LikeTokens(fields[0], pattern) + OrTokens(fields[1..], pattern)
  }

  function GroupTokens(fields: seq<string>, pattern: string): seq<Token> {
    [LParen] + (if fields == [] then [] else LikeTokens(fields[0], pattern) + OrTokens(fields[1..], pattern)) + [RParen]
  }

  function AndTokens(fields: seq<string>, patterns: seq<string>): seq<Token>
    decreases patterns
  {
    if patterns == [] then [] else [Word("AND")] + GroupTokens(fields, patterns[0]) + AndTokens(fields, patterns[1..])
  }

  function GroupText(fields: seq<string>, pattern: string): string {
    "(" + Join(" OR ", LikeTexts(fields, pattern)) + ")"
  }

  /** A field name is a letter or an underscore followed by letters, digits, underscores and dots. */
  lemma NamesAre(name: string)
    ensures FieldName(name) <==>
            (name != "" && !('0' <= name[0] <= '9') && name[0] != '.'
             && forall c :: c in name ==> 'a' <= c <= 'z' || 'A' <= c <= 'Z' || '0' <= c <= '9' || c == '_' || c == '.')
  {
    if name != "" {
      assert name[0] in name;
      assert forall i :: 0 <= i < |name| ==> name[i] in name;
    }
  }

  ghost predicate AllNames(fields: seq<string>) {
    forall i :: 0 <= i < |fields| ==> FieldName(fields[i])
  }

  lemma {:induction false} LexOrs(fields: seq<string>, pattern: string, rest: string)
    requires AllNames(fields) && fields != [] && (rest == "" || rest[0] != '\'')
    ensures Lex(Join(" OR ", LikeTexts(fields, pattern)) + rest)
            == LikeTokens(fields[0], pattern) + OrTokens(fields[1..], pattern) + Lex(rest)
  {
    hide Lex, LikeText, LikeTokens;
    var texts := LikeTexts(fields, pattern);
    if |fields| == 1 {
      LexLike(fields[0], pattern, rest);
    } else {
      var more := fields[1..];
      assert texts[1..] == LikeTexts(more, pattern);
      var tail := Join(" OR ", LikeTexts(more, pattern)) + rest;
      LexOrs(more, pattern, rest);
      assert Join(" OR ", texts) + rest == LikeText(fields[0], pattern) + (" OR " + tail);
      LexLike(fields[0], pattern, " OR " + tail);
      LexConnective("OR", tail);
      assert " OR " + tail == " " + ("OR" + (" " + tail));
    }
  }

  lemma LexConnective(w: string, tail: string)
    requires AllWord(w)
    ensures Lex(" " + (w + (" " + tail))) == [Word(w)] + Lex(tail)
  {
    hide Lex;
    LexMark(' ', w + (" " + tail));
    LexWord(w, " " + tail);
    LexMark(' ', tail);
  }

  lemma LexGroup(fields: seq<string>, pattern: string, rest: string)
    requires AllNames(fields)
    ensures Lex(GroupText(fields, pattern) + rest) == GroupTokens(fields, pattern) + Lex(rest)
  {
    hide Lex, LikeTokens;
    var inner := Join(" OR ", LikeTexts(fields, pattern));
    assert GroupText(fields, pattern) + rest == "(" + (inner + (")" + rest));
    LexMark('(', inner + (")" + rest));
    LexMark(')', rest);
    if fields != [] {
      LexOrs(fields, pattern, ")" + rest);
    } else {
      assert inner + (")" + rest) == ")" + rest;
    }
  }

  function GroupTexts(fields: seq<string>, patterns: seq<string>): (r: seq<string>)
    ensures |r| == |patterns| && forall i :: 0 <= i < |r| ==> r[i] == GroupText(fields, patterns[i])
  {
    seq(|patterns|, i requires 0 <= i < |patterns| => GroupText(fields, patterns[i]))
  }

  lemma {:induction false} LexAnds(fields: seq<string>, patterns: seq<string>)
    requires AllNames(fields) && patterns != []
    ensures Lex(Join(" AND ", GroupTexts(fields, patterns)))
            == GroupTokens(fields, patterns[0]) + AndTokens(fields, patterns[1..])
  {
    hide Lex, GroupText, GroupTokens;
    var texts := GroupTexts(fields, patterns);
    if |patterns| == 1 {
      LexGroup(fields, patterns[0], "");
      assert GroupText(fields, patterns[0]) + "" == GroupText(fields, patterns[0]);
      assert Lex("") == [] by { LexNothing(); }
    } else {
      var more := patterns[1..];
      assert texts[1..] == GroupTexts(fields, more);
      var tail := Join(" AND ", GroupTexts(fields, more));
      LexAnds(fields, more);
      assert Join(" AND ", texts) == GroupText(fields, patterns[0]) + (" AND " + tail);
      LexGroup(fields, patterns[0], " AND " + tail);
      LexConnective("AND", tail);
      assert " AND " + tail == " " + ("AND" + (" " + tail));
    }
  }

  lemma LexNothing()
    ensures Lex("") == []
  {
  }

  // ---- Parsing the tokens ----------------------------------------------------------------------------

  function OrOf(left: Condition, fields: seq<string>, pattern: string): Condition
    decreases fields
  {
    if fields == [] then left else OrOf(Or(left, Like(fields[0], pattern)), fields[1..], pattern)
  }

  function Group(fields: seq<string>, pattern: string): Condition
    requires fields != []
  {
    OrOf(Like(fields[0], pattern), fields[1..], pattern)
  }

  function AndOf(left: Condition, fields: seq<string>, patterns: seq<string>): Condition
    requires fields != []
    decreases patterns
  {
    if patterns == [] then left else AndOf(And(left, Group(fields, patterns[0])), fields, patterns[1..])
  }

  /** The condition a search means: every pattern matches some field. */
  function Intended(fields: seq<string>, patterns: seq<string>): Condition
    requires fields != [] && patterns != []
  {
    AndOf(Group(fields, patterns[0]), fields, patterns[1..])
  }

  predicate NoneReserved(reserved: set<string>, fields: seq<string>) {
    forall i :: 0 <= i < |fields| ==> !Reserved(reserved, fields[i])
  }

  lemma Keywords()
    ensures Is(Word("UPPER"), "UPPER") && Is(Word("LIKE"), "LIKE")
    ensures Is(Word("AND"), "AND") && Is(Word("OR"), "OR") && !Is(Word("OR"), "AND")
  {
    assert AsciiUpper("UPPER") == "UPPER";
    assert AsciiUpper("LIKE") == "LIKE";
    assert AsciiUpper("AND") == "AND";
    assert AsciiUpper("OR") == "OR";
  }

  lemma ParseLike(reserved: set<string>, field: string, pattern: string, rest: seq<Token>)
    ensures ParsePrimary(reserved, LikeTokens(field, pattern) + rest) ==
            if Reserved(reserved, field) then None else Some((Like(field, pattern), rest))
  {
    hide Is, Reserved;
    Keywords();
    var ts := LikeTokens(field, pattern) + rest;
    assert ts[0] == Word("UPPER") && ts[6..] == rest;
  }

  lemma {:induction false} ParseOrs(reserved: set<string>, left: Condition, fields: seq<string>, pattern: string,
                                    rest: seq<Token>)
    requires rest != [] && rest[0] == RParen
    ensures OrTail(reserved, left, OrTokens(fields, pattern) + rest) ==
            if NoneReserved(reserved, fields) then Some((OrOf(left, fields, pattern), rest)) else None
    decreases fields
  {
    hide Is, Reserved, ParsePrimary, LikeTokens, NoneReserved;
    ReservedSplit(reserved, fields);
    var ts := OrTokens(fields, pattern) + rest;
    if fields == [] {
      assert ts == rest;
      assert !Is(rest[0], "OR") by { MarkIsNoKeyword(); }
    } else {
      Keywords();
      var more := OrTokens(fields[1..], pattern) + rest;
      assert ts == [Word("OR")] + (LikeTokens(fields[0], pattern) + more);
      assert ts[1..] == LikeTokens(fields[0], pattern) + more;
      ParseLike(reserved, fields[0], pattern, more);
      assert !Is(more[0], "AND") by { MarkIsNoKeyword(); }
      if !Reserved(reserved, fields[0]) {
        var like := Like(fields[0], pattern);
        assert AndTail(reserved, like, more) == Some((like, more));
        assert ParseAnd(reserved, ts[1..]) == Some((like, more));
        assert OrTail(reserved, left, ts) == OrTail(reserved, Or(left, like), more);
        ParseOrs(reserved, Or(left, Like(fields[0], pattern)), fields[1..], pattern, rest);
      }
    }
  }

  lemma ReservedSplit(reserved: set<string>, fields: seq<string>)
    ensures NoneReserved(reserved, fields)
            <==> fields == [] || (!Reserved(reserved, fields[0]) && NoneReserved(reserved, fields[1..]))
  {
    hide Reserved;
    assert fields != [] ==> fields == [fields[0]] + fields[1..];
  }

  lemma MarkIsNoKeyword()
    ensures forall k :: !Is(RParen, k)
  {
  }

  /** A group reads back exactly when it has a field and none of its fields is a reserved word. */
  lemma ParseGroup(reserved: set<string>, fields: seq<string>, pattern: string, rest: seq<Token>)
    ensures ParsePrimary(reserved, GroupTokens(fields, pattern) + rest) ==
            if fields != [] && NoneReserved(reserved, fields) then Some((Group(fields, pattern), rest)) else None
  {
    hide Is, Reserved, LikeTokens, NoneReserved;
    var ts := GroupTokens(fields, pattern) + rest;
    var close := [RParen] + rest;
    if fields == [] {
      assert ts[1..] == close;
      assert ParsePrimary(reserved, close) == None by { MarkIsNoKeyword(); }
      assert ParseAnd(reserved, close) == None;
      assert ParseOr(reserved, close) == None;
    } else {
      ReservedSplit(reserved, fields);
      var more := OrTokens(fields[1..], pattern) + close;
      assert ts[1..] == LikeTokens(fields[0], pattern) + more;
      ParseLike(reserved, fields[0], pattern, more);
      assert !Is(more[0], "AND") by { Keywords(); MarkIsNoKeyword(); }
      if !Reserved(reserved, fields[0]) {
        var like := Like(fields[0], pattern);
        assert AndTail(reserved, like, more) == Some((like, more));
        assert ParseAnd(reserved, ts[1..]) == Some((like, more));
        assert ParseOr(reserved, ts[1..]) == OrTail(reserved, like, more);
        ParseOrs(reserved, Like(fields[0], pattern), fields[1..], pattern, close);
        assert close[1..] == rest;
      } else {
        assert ParseAnd(reserved, ts[1..]) == None;
        assert ParseOr(reserved, ts[1..]) == None;
      }
    }
  }

  lemma {:induction false} ParseAnds(reserved: set<string>, left: Condition, fields: seq<string>, patterns: seq<string>)
    requires fields != []
    ensures AndTail(reserved, left, AndTokens(fields, patterns)) ==
            if patterns == [] || NoneReserved(reserved, fields) then Some((AndOf(left, fields, patterns), [])) else None
    decreases patterns
  {
    hide Is, Reserved, ParsePrimary, GroupTokens, NoneReserved;
    if patterns != [] {
      Keywords();
      var ts := AndTokens(fields, patterns);
      var more := AndTokens(fields, patterns[1..]);
      assert ts[1..] == GroupTokens(fields, patterns[0]) + more;
      ParseGroup(reserved, fields, patterns[0], more);
      if NoneReserved(reserved, fields) {
        ParseAnds(reserved, And(left, Group(fields, patterns[0])), fields, patterns[1..]);
      }
    }
  }

  /** Reading a rendered clause gives the intended AND of ORs exactly when there is a field, a pattern, and no
      field named like a reserved word; otherwise a reader refuses it. */
  lemma ParseClause(reserved: set<string>, fields: seq<string>, patterns: seq<string>)
    requires AllNames(fields)
    ensures Read(reserved, Join(" AND ", GroupTexts(fields, patterns))) ==
            if fields != [] && patterns != [] && NoneReserved(reserved, fields)
            then Some(Intended(fields, patterns)) else None
  {
    hide Is, Reserved, GroupTokens, NoneReserved, Lex;
    if patterns == [] {
      assert Join(" AND ", GroupTexts(fields, patterns)) == "";
      LexNothing();
    } else {
      LexAnds(fields, patterns);
      var more := AndTokens(fields, patterns[1..]);
      var ts := GroupTokens(fields, patterns[0]) + more;
      ParseGroup(reserved, fields, patterns[0], more);
      if fields != [] && NoneReserved(reserved, fields) {
        ParseAnds(reserved, Group(fields, patterns[0]), fields, patterns[1..]);
        var whole := Intended(fields, patterns);
        assert ParseAnd(reserved, ts) == Some((whole, []));
        assert OrTail(reserved, whole, []) == Some((whole, []));
        assert ParseOr(reserved, ts) == Some((whole, []));
      } else {
        assert ParseAnd(reserved, ts) == None;
      }
    }
  }

  // ---- What the conditions mean ----------------------------------------------------------------------

  ghost predicate SomeField(fields: seq<string>, row: Row, pattern: string) {
    exists i :: 0 <= i < |fields| && row(fields[i]).Some? && Matches(row(fields[i]).value, pattern)
  }

  lemma {:induction false} OrMeans(left: Condition, fields: seq<string>, pattern: string, row: Row)
    ensures Eval(OrOf(left, fields, pattern), row) == True
            <==> Eval(left, row) == True || SomeField(fields, row, pattern)
    decreases fields
  {
    hide Matches;
    if fields != [] {
      OrMeans(Or(left, Like(fields[0], pattern)), fields[1..], pattern, row);
      assert fields == [fields[0]] + fields[1..];
      if SomeField(fields, row, pattern) && !(row(fields[0]).Some? && Matches(row(fields[0]).value, pattern)) {
        var i :| 0 <= i < |fields| && row(fields[i]).Some? && Matches(row(fields[i]).value, pattern);
        assert fields[1..][i - 1] == fields[i];
      }
    }
  }

  lemma GroupMeans(fields: seq<string>, pattern: string, row: Row)
    requires fields != []
    ensures Eval(Group(fields, pattern), row) == True <==> SomeField(fields, row, pattern)
  {
    hide Matches;
    OrMeans(Like(fields[0], pattern), fields[1..], pattern, row);
    if SomeField(fields, row, pattern) && !(row(fields[0]).Some? && Matches(row(fields[0]).value, pattern)) {
      var i :| 0 <= i < |fields| && row(fields[i]).Some? && Matches(row(fields[i]).value, pattern);
      assert fields[1..][i - 1] == fields[i];
    }
  }

  lemma {:induction false} AndMeans(left: Condition, fields: seq<string>, patterns: seq<string>, row: Row)
    requires fields != []
    ensures Eval(AndOf(left, fields, patterns), row) == True <==>
            Eval(left, row) == True && forall j :: 0 <= j < |patterns| ==> SomeField(fields, row, patterns[j])
    decreases patterns
  {
    hide SomeField, Group;
    if patterns != [] {
      GroupMeans(fields, patterns[0], row);
      AndMeans(And(left, Group(fields, patterns[0])), fields, patterns[1..], row);
      assert patterns == [patterns[0]] + patterns[1..];
    }
  }

  lemma IntendedMeans(fields: seq<string>, patterns: seq<string>, row: Row)
    requires fields != [] && patterns != []
    ensures Eval(Intended(fields, patterns), row) == True
            <==> forall j :: 0 <= j < |patterns| ==> SomeField(fields, row, patterns[j])
  {
    hide SomeField, Group;
    GroupMeans(fields, patterns[0], row);
    AndMeans(Group(fields, patterns[0]), fields, patterns[1..], row);
    assert patterns == [patterns[0]] + patterns[1..];
  }

  // ---- Patterns --------------------------------------------------------------------------------------

  /** No wildcards. */
  ghost predicate Plain(s: string) {
    forall i :: 0 <= i < |s| ==> s[i] != '%' && s[i] != '_'
  }

  ghost predicate Contains(text: string, part: string) {
    exists i :: 0 <= i <= |text| && part <= text[i..]
  }

  lemma {:induction false} PrefixPattern(text: string, plain: string)
    requires Plain(plain)
    ensures Matches(text, plain + "%") <==> plain <= text
  {
    var p := plain + "%";
    if plain == "" {
      assert p[1..] == "" && text[|text|..] == "";
    } else {
      assert p[1..] == plain[1..] + "%";
      if text != "" {
        PrefixPattern(text[1..], plain[1..]);
        assert plain == [plain[0]] + plain[1..] && text == [text[0]] + text[1..];
      }
    }
  }

  lemma ContainsPattern(text: string, plain: string)
    requires Plain(plain)
    ensures Matches(text, "%" + plain + "%") <==> Contains(text, plain)
  {
    var p := "%" + plain + "%";
    assert p[1..] == plain + "%";
    forall i | 0 <= i <= |text| ensures Matches(text[i..], p[1..]) <==> plain <= text[i..] {
      PrefixPattern(text[i..], plain);
    }
  }

  /** Upper-casing goes character by character. */
  lemma UpperIs(a: Alphabet, c: char, s: string)
    ensures Upper(a, "") == "" && Upper(a, [c]) == a.upper(c) && Upper(a, [c] + s) == a.upper(c) + Upper(a, s)
  {
    assert ([c] + s)[1..] == s && [c][1..] == "";
  }

  lemma {:induction false} UpperConcat(a: Alphabet, s: string, t: string)
    ensures Upper(a, s + t) == Upper(a, s) + Upper(a, t)
  {
    if s == "" {
      assert s + t == t;
    } else {
      UpperConcat(a, s[1..], t);
      assert (s + t)[1..] == s[1..] + t;
    }
  }

  ghost predicate AllAllowed(a: Alphabet, s: string) {
    forall i :: 0 <= i < |s| ==> Allowed(a, s[i])
  }

  lemma {:induction false} UpperIsPlain(a: Alphabet, s: string)
    requires Sensible(a) && AllAllowed(a, s)
    ensures Plain(Upper(a, s))
  {
    if s != "" {
      UpperIsPlain(a, s[1..]);
      assert Allowed(a, s[0]);
      var u := a.upper(s[0]);
      forall i | 0 <= i < |u| ensures u[i] != '%' && u[i] != '_' {
        assert u[i] in u;
      }
    }
  }

  // ---- From the printer to the tokens ----------------------------------------------------------------

  function FirstBad(fields: seq<string>): (r: string)
    requires exists i :: 0 <= i < |fields| && !FieldName(fields[i])
    ensures r in fields && !FieldName(r)
  {
    if !FieldName(fields[0]) then fields[0] else
    assert fields == [fields[0]] + fields[1..];
    FirstBad(fields[1..])
  }

  lemma {:induction false} FieldsRender(a: Alphabet, fields: seq<string>, pattern: string)
    ensures EachField(a, fields, pattern) ==
            if AllNames(fields) then Success(LikeTexts(fields, Upper(a, pattern))) else Failure(FirstBad(fields))
  {
    hide FieldName;
    if fields == [] {
      assert LikeTexts(fields, Upper(a, pattern)) == [];
    } else {
      FieldsRender(a, fields[1..], pattern);
      assert fields == [fields[0]] + fields[1..];
      assert LikeTexts(fields, Upper(a, pattern))
             == [LikeText(fields[0], Upper(a, pattern))] + LikeTexts(fields[1..], Upper(a, pattern));
      if AllNames(fields[1..]) && FieldName(fields[0]) {
        assert AllNames(fields);
      }
    }
  }

  function TokenPatterns(a: Alphabet, tokens: seq<string>): (r: seq<string>)
    ensures |r| == |tokens| && forall i :: 0 <= i < |r| ==> r[i] == Upper(a, "%" + tokens[i] + "%")
  {
    seq(|tokens|, i requires 0 <= i < |tokens| => Upper(a, "%" + tokens[i] + "%"))
  }

  lemma {:induction false} TokensRender(a: Alphabet, fields: seq<string>, tokens: seq<string>)
    ensures EachToken(a, fields, tokens) ==
            if tokens == [] then Success([])
            else if AllNames(fields) then Success(GroupTexts(fields, TokenPatterns(a, tokens)))
            else Failure(FirstBad(fields))
    decreases tokens
  {
    hide FieldName, EachField, LikeTexts;
    if tokens != [] {
      FieldsRender(a, fields, "%" + tokens[0] + "%");
      TokensRender(a, fields, tokens[1..]);
      var patterns := TokenPatterns(a, tokens);
      assert patterns[1..] == TokenPatterns(a, tokens[1..]);
      assert GroupTexts(fields, patterns) == [GroupText(fields, patterns[0])] + GroupTexts(fields, patterns[1..]);
      if |tokens| == 1 {
        assert GroupTexts(fields, patterns[1..]) == [];
      }
    }
  }

  /** Rendering fails exactly when a token is looked for in a field whose name is not valid, and names the
      first such field. */
  lemma ContainsRenders(a: Alphabet, fields: seq<string>, tokens: seq<string>)
    ensures ContainsAllTokensClause(a, fields, tokens) ==
            if tokens == [] || AllNames(fields)
              then Success(Join(" AND ", GroupTexts(fields, TokenPatterns(a, tokens))))
            else Failure(FirstBad(fields))
  {
    hide GroupText, FieldName;
    TokensRender(a, fields, tokens);
    if tokens == [] {
      assert GroupTexts(fields, TokenPatterns(a, tokens)) == [];
    }
  }

  lemma PrefixRenders(a: Alphabet, fields: seq<string>, text: string)
    ensures PrefixClause(a, fields, text) ==
            if AllNames(fields) then Success(Join(" AND ", GroupTexts(fields, [Upper(a, text + "%")])))
              else Failure(FirstBad(fields))
  {
    hide FieldName, Upper;
    FieldsRender(a, fields, text + "%");
    assert GroupTexts(fields, [Upper(a, text + "%")]) == [GroupText(fields, Upper(a, text + "%"))];
  }

  // ---- What the clauses mean -------------------------------------------------------------------------

  /** Some field has a value that contains, or starts with, the text. */
  ghost predicate FieldContains(fields: seq<string>, row: Row, part: string) {
    exists i :: 0 <= i < |fields| && row(fields[i]).Some? && Contains(row(fields[i]).value, part)
  }

  ghost predicate FieldStarts(fields: seq<string>, row: Row, start: string) {
    exists i :: 0 <= i < |fields| && row(fields[i]).Some? && start <= row(fields[i]).value
  }

  lemma TokenMeans(a: Alphabet, fields: seq<string>, token: string, row: Row)
    requires Sensible(a) && AllAllowed(a, token)
    ensures SomeField(fields, row, Upper(a, "%" + token + "%")) <==> FieldContains(fields, row, Upper(a, token))
  {
    UpperConcat(a, "%" + token, "%");
    UpperConcat(a, "%", token);
    assert Upper(a, "%") == "%";
    UpperIsPlain(a, token);
    hide Matches, Contains, Upper, Plain;
    forall i | 0 <= i < |fields| && row(fields[i]).Some?
      ensures Matches(row(fields[i]).value, "%" + Upper(a, token) + "%")
              <==> Contains(row(fields[i]).value, Upper(a, token))
    {
      ContainsPattern(row(fields[i]).value, Upper(a, token));
    }
  }

  lemma StartMeans(a: Alphabet, fields: seq<string>, text: string, row: Row)
    requires Sensible(a) && AllAllowed(a, text)
    ensures SomeField(fields, row, Upper(a, text + "%")) <==> FieldStarts(fields, row, Upper(a, text))
  {
    UpperConcat(a, text, "%");
    assert Upper(a, "%") == "%";
    UpperIsPlain(a, text);
    hide Matches, Upper, Plain;
    forall i | 0 <= i < |fields| && row(fields[i]).Some?
      ensures Matches(row(fields[i]).value, Upper(a, text) + "%") <==> Upper(a, text) <= row(fields[i]).value
    {
      PrefixPattern(row(fields[i]).value, Upper(a, text));
    }
  }

  lemma EachTokenFound(a: Alphabet, fields: seq<string>, tokens: seq<string>, patterns: seq<string>, row: Row)
    requires |patterns| == |tokens|
    requires forall i :: 0 <= i < |tokens| ==>
             (SomeField(fields, row, patterns[i]) <==> FieldContains(fields, row, Upper(a, tokens[i])))
    ensures (forall i :: 0 <= i < |patterns| ==> SomeField(fields, row, patterns[i]))
            <==> forall t :: t in tokens ==> FieldContains(fields, row, Upper(a, t))
  {
    hide SomeField, FieldContains, Upper;
    if forall t :: t in tokens ==> FieldContains(fields, row, Upper(a, t)) {
      forall i | 0 <= i < |patterns| ensures SomeField(fields, row, patterns[i]) {
        assert tokens[i] in tokens;
      }
    }
  }

  /** The token clause reads back exactly when there is a field and a token and no field is a reserved word,
      and then holds of exactly the records in which every token is part of some upper-cased field. */
  lemma ContainsMeans(a: Alphabet, reserved: set<string>, fields: seq<string>, tokens: seq<string>, row: Row)
    requires Sensible(a) && AllNames(fields) && forall t :: t in tokens ==> AllAllowed(a, t)
    ensures var clause := ContainsAllTokensClause(a, fields, tokens);
            clause.Success?
            && var read := Read(reserved, clause.value);
               (read.Some? <==> fields != [] && tokens != [] && NoneReserved(reserved, fields))
               && (read.Some? ==> (Eval(read.value, row) == True
                  <==> forall t :: t in tokens ==> FieldContains(fields, row, Upper(a, t))))
  {
    hide Read, Eval, FieldContains, SomeField, NoneReserved, FieldName, Upper, ContainsAllTokensClause, GroupTexts,
      AllAllowed, Sensible, Intended;
    ContainsRenders(a, fields, tokens);
    var patterns := TokenPatterns(a, tokens);
    ParseClause(reserved, fields, patterns);
    if fields != [] && tokens != [] && NoneReserved(reserved, fields) {
      IntendedMeans(fields, patterns, row);
      forall i | 0 <= i < |tokens|
        ensures SomeField(fields, row, patterns[i]) <==> FieldContains(fields, row, Upper(a, tokens[i]))
      {
        TokenMeans(a, fields, tokens[i], row);
      }
      EachTokenFound(a, fields, tokens, patterns, row);
    }
  }

  /** The prefix clause reads back exactly when there is a field and none is a reserved word, and then holds
      of exactly the records in which some upper-cased field starts with the text. */
  lemma PrefixMeans(a: Alphabet, reserved: set<string>, fields: seq<string>, text: string, row: Row)
    requires Sensible(a) && AllNames(fields) && AllAllowed(a, text)
    ensures var clause := PrefixClause(a, fields, text);
            clause.Success?
            && var read := Read(reserved, clause.value);
               (read.Some? <==> fields != [] && NoneReserved(reserved, fields))
               && (read.Some? ==> (Eval(read.value, row) == True <==> FieldStarts(fields, row, Upper(a, text))))
  {
    hide Read, Eval, FieldStarts, SomeField, NoneReserved, FieldName, Upper, PrefixClause, GroupTexts, AllAllowed,
      Sensible, Intended;
    PrefixRenders(a, fields, text);
    var patterns := [Upper(a, text + "%")];
    ParseClause(reserved, fields, patterns);
    if fields != [] && NoneReserved(reserved, fields) {
      IntendedMeans(fields, patterns, row);
      StartMeans(a, fields, text, row);
    }
  }

  // ---- Searches --------------------------------------------------------------------------------------

  lemma {:induction false} WordsAllowed(a: Alphabet, s: string)
    requires AllAllowed(a, s)
    ensures forall w :: w in Words(a, s) ==> AllAllowed(a, w)
    decreases |s|
  {
    if s != "" {
      WordsAllowed(a, s[1..]);
      assert Allowed(a, s[0]);
      hide Allowed;
      var rest := Words(a, s[1..]);
      if rest != [] {
        assert rest[0] in rest;
      }
      forall w | w in Words(a, s) ensures AllAllowed(a, w) {
        if w !in rest {
          assert w == [s[0]] || (rest != [] && w == [s[0]] + rest[0]);
        }
      }
    }
  }

  lemma {:induction false} JoinAllowed(a: Alphabet, words: seq<string>)
    requires Allowed(a, ' ') && forall w :: w in words ==> AllAllowed(a, w)
    ensures AllAllowed(a, Join(" ", words))
  {
    hide Allowed;
    if words != [] {
      assert words[0] in words;
      if |words| > 1 {
        JoinAllowed(a, words[1..]);
      }
    }
  }

  lemma {:induction false} SplitWord(w: string, rest: string)
    requires ' ' !in w
    ensures Split(w) == [w] && Split(w + " " + rest) == [w] + Split(rest)
  {
    if w == "" {
      assert (w + " " + rest)[1..] == rest;
    } else {
      assert w == [w[0]] + w[1..];
      SplitWord(w[1..], rest);
      assert (w + " " + rest)[1..] == w[1..] + " " + rest;
    }
  }

  lemma {:induction false} SplitJoined(words: seq<string>)
    requires words != [] && forall w :: w in words ==> ' ' !in w
    ensures Split(Join(" ", words)) == words
  {
    assert words[0] in words;
    SplitWord(words[0], Join(" ", words[1..]));
    if |words| > 1 {
      SplitJoined(words[1..]);
      assert words == [words[0]] + words[1..];
    }
  }

  /** The words of a search text. */
  function TextWords(a: Alphabet, text: string): seq<string> {
    Words(a, Cleaned(a, text))
  }

  /** Where a word first occurs. */
  function FirstAt(words: seq<string>, w: string): (i: nat)
    requires w in words
    ensures i < |words| && words[i] == w && forall j :: 0 <= j < i ==> words[j] != w
  {
    if words[0] == w then 0 else
    assert words == [words[0]] + words[1..];
    1 + FirstAt(words[1..], w)
  }

  lemma FirstStays(words: seq<string>, last: string, w: string)
    requires w in words
    ensures FirstAt(words + [last], w) == FirstAt(words, w)
  {
    var i, j := FirstAt(words, w), FirstAt(words + [last], w);
    assert (words + [last])[i] == w;
    assert forall k :: 0 <= k < |words| ==> (words + [last])[k] == words[k];
  }

  /** The different words come in the order in which they first occur. */
  lemma {:induction false} UniqueInOrder(words: seq<string>)
    ensures forall i, j :: 0 <= i < j < |Unique(words)| ==>
              FirstAt(words, Unique(words)[i]) < FirstAt(words, Unique(words)[j])
  {
    if words != [] {
      var init, last, u := words[..|words| - 1], words[|words| - 1], Unique(words);
      UniqueInOrder(init);
      assert words == init + [last];
      forall i, j | 0 <= i < j < |u| ensures FirstAt(words, u[i]) < FirstAt(words, u[j]) {
        assert Unique(init)[i] == u[i];
        FirstStays(init, last, u[i]);
        if j < |Unique(init)| {
          assert Unique(init)[j] == u[j];
          FirstStays(init, last, u[j]);
        } else {
          assert u[j] == last;
        }
      }
    }
  }

  /** The tokens searched for are the first eight different words. */
  lemma TokensAreTheFirst(normalized: string)
    ensures var tokens, words := SearchTokens(normalized), Split(normalized);
            |tokens| <= 8 && (forall i, j :: 0 <= i < j < |tokens| ==> tokens[i] != tokens[j])
            && (forall t :: t in tokens ==> t in words)
            && (forall w :: w in words && w !in tokens ==>
                  |tokens| == 8 && forall i :: 0 <= i < |tokens| ==> FirstAt(words, tokens[i]) < FirstAt(words, w))
  {
    var words := Split(normalized);
    var u, tokens := Unique(words), SearchTokens(normalized);
    UniqueInOrder(words);
    forall w | w in words && w !in tokens
      ensures |tokens| == 8 && forall i :: 0 <= i < |tokens| ==> FirstAt(words, tokens[i]) < FirstAt(words, w)
    {
      var j :| 0 <= j < |u| && u[j] == w;
      assert j >= 8;
    }
    forall i, j | 0 <= i < j < |tokens| ensures tokens[i] != tokens[j] {
      assert tokens[i] == u[i] && tokens[j] == u[j];
    }
  }

  /** A search text with words is split into exactly them, and is made of allowed characters. */
  lemma NormalizedSplits(a: Alphabet, text: string)
    requires Sensible(a)
    ensures var n := NormalizeSearchText(a, text);
            AllAllowed(a, n) && (n == "" <==> TextWords(a, text) == [])
            && (n != "" ==> Split(n) == TextWords(a, text))
            && forall w :: w in TextWords(a, text) ==> AllAllowed(a, w)
  {
    var s := Cleaned(a, text);
    assert Allowed(a, ' ');
    assert AllAllowed(a, s);
    hide Allowed, Words;
    NormalizedIsItsWords(a, text);
    WordsAllowed(a, s);
    WordsAreSolid(a, s);
    var words := Words(a, s);
    JoinAllowed(a, words);
    if words != [] {
      JoinSolid(a, words);
      forall w | w in words ensures ' ' !in w {
        assert a.space(' ');
      }
      SplitJoined(words);
    }
  }

  /** A search over any text: with a word to look for, a field, and no field named like a reserved word, the
      first clause holds of the records where a field starts with the normalized text and the second, for at
      most eight different words, of those where every word of the text is part of some field. */
  lemma SearchMeans(a: Alphabet, reserved: set<string>, fields: seq<string>, text: string, row: Row)
    requires Sensible(a) && AllNames(fields) && fields != [] && NoneReserved(reserved, fields)
    requires NormalizeSearchText(a, text) != ""
    ensures var n := NormalizeSearchText(a, text);
            var prefix, contains := PrefixClause(a, fields, n), ContainsAllTokensClause(a, fields, SearchTokens(n));
            prefix.Success? && contains.Success?
            && var p, c := Read(reserved, prefix.value), Read(reserved, contains.value);
               p.Some? && c.Some?
               && (Eval(p.value, row) == True <==> FieldStarts(fields, row, Upper(a, Join(" ", TextWords(a, text)))))
               && (Eval(c.value, row) == True
                   <==> forall w :: w in SearchTokens(n) ==> FieldContains(fields, row, Upper(a, w)))
               && (|Unique(TextWords(a, text))| <= MAX_SEARCH_TOKENS
                   ==> forall w :: w in SearchTokens(n) <==> w in TextWords(a, text))
  {
    hide Read, Eval, FieldStarts, FieldContains, NoneReserved, FieldName, Upper, PrefixClause, ContainsAllTokensClause,
      Words, Split, Allowed, Sensible, Join, NormalizeSearchText;
    var n := NormalizeSearchText(a, text);
    NormalizedSplits(a, text);
    assert a.space(' ') by { SpaceIsSpace(a); }
    NormalizedIsItsWords(a, text);
    var tokens := SearchTokens(n);
    UniqueNotEmpty(Split(n));
    assert forall t :: t in tokens ==> t in Unique(Split(n));
    PrefixMeans(a, reserved, fields, n, row);
    ContainsMeans(a, reserved, fields, tokens, row);
  }

  lemma SpaceIsSpace(a: Alphabet)
    requires Sensible(a)
    ensures a.space(' ')
  {
  }

  lemma {:induction false} UniqueNotEmpty(words: seq<string>)
    requires words != []
    ensures Unique(words) != []
  {
    assert words[0] in words;
    assert words[0] in Unique(words);
  }
}
