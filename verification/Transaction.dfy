/** Unwrapping BEGIN and COMMIT from a migration file, and when the transaction that the deployer composes
    around the unwrapped body is one atomic transaction. */
module Transaction {
  import opened Text
  import opened SqlLexer
  import opened LexerLaws
  import opened SqlLiteral
  import opened SqlPieces
  import opened TransactionStatus

  const BEGIN: seq<Token> := ["begin"]
  const COMMIT: seq<Token> := ["commit"]

  predicate IsTransactionControl(tokens: seq<Token>) {
    && tokens != []
    && (|| tokens[0] in {"abort", "begin", "commit", "end", "prepare", "release", "rollback", "savepoint", "start"}
        || (tokens[0] == "set" && |tokens| > 1 && tokens[1] in {"session", "transaction"}))
  }

  datatype WrapError = Lexical(error: LexError) | NoWrapper | InnerControl | EmptyBody

  function SkipSpace(s: string, i: nat): (r: nat)
    requires i <= |s|
    ensures i <= r <= |s| && IsBlank(s[i..r])
    ensures r < |s| ==> !IsSpace(s[r])
    decreases |s| - i
  {
    if i < |s| && IsSpace(s[i]) then
      var r := SkipSpace(s, i + 1);
      assert s[i..r] == [s[i]] + s[i + 1..r];
      r
    else i
  }

  function SkipSpaceBack(s: string, j: nat): (r: nat)
    requires j <= |s|
    ensures r <= j && IsBlank(s[r..j])
    ensures r > 0 ==> !IsSpace(s[r - 1])
  {
    if j > 0 && IsSpace(s[j - 1]) then
      var r := SkipSpaceBack(s, j - 1);
      assert s[r..j] == s[r..j - 1] + [s[j - 1]];
      r
    else j
  }

  /** The end of `\A\ufeff?\s*begin\s*;`, or none. */
  function OpeningEnd(sql: string): (end: int)
    ensures end <= |sql|
  {
    var word := SkipSpace(sql, if sql != "" && sql[0] == BYTE_ORDER_MARK then 1 else 0);
    if word + 5 > |sql| || Casefold(sql[word..word + 5]) != "begin" then -1
    else
      var semicolon := SkipSpace(sql, word + 5);
      if semicolon < |sql| && sql[semicolon] == ';' then semicolon + 1 else -1
  }

  /** The start of `commit\s*;\s*\Z`, or none. */
  function ClosingStart(sql: string): (start: int)
    ensures start <= |sql|
  {
    var last := SkipSpaceBack(sql, |sql|);
    if last == 0 || sql[last - 1] != ';' then -1
    else
      var word := SkipSpaceBack(sql, last - 1);
      if word < 6 || Casefold(sql[word - 6..word]) != "commit" then -1 else word - 6
  }

  function Body(sql: string): string
    requires 0 <= OpeningEnd(sql) <= ClosingStart(sql)
  {
    Strip(sql[OpeningEnd(sql)..ClosingStart(sql)])
  }

  function Middle(statements: seq<Statement>): seq<Statement>
    requires |statements| >= 2
  {
    statements[1..|statements| - 1]
  }

  predicate Controls(statements: seq<Statement>) {
    exists i :: 0 <= i < |statements| && IsTransactionControl(statements[i].tokens)
  }

  function Unwrap(sql: string): Result<string, WrapError> {
    var lexed := Lex(sql);
    if lexed.Err? then Err(Lexical(lexed.error)) else
    var statements := lexed.value;
    if |statements| < 3 || statements[0].tokens != BEGIN || statements[|statements| - 1].tokens != COMMIT then Err(NoWrapper)
    else if Controls(Middle(statements)) then Err(InnerControl)
    else if !(0 <= OpeningEnd(sql) <= ClosingStart(sql)) then Err(NoWrapper)
    else if Body(sql) == "" then Err(EmptyBody)
    else Ok(Body(sql))
  }

  /** The server runs the request as one transaction: all of it or nothing. */
  predicate IsAtomic(sql: string) {
    Lex(sql).Ok? && AreAtomic(Lex(sql).value)
  }

  /** The server commits what came before in the middle of the request. */
  predicate CommitsEarly(sql: string) {
    var lexed := Lex(sql);
    lexed.Ok? && exists j :: 0 < j < |lexed.value| - 1 && EndsAt(lexed.value, j)
  }

  /** The COMMIT that ends the file stands in a line comment, where it commits nothing. */
  predicate CommitCommentedOut(sql: string) {
    && 0 <= ClosingStart(sql)
    && var before := Run(Fresh([]), sql[..ClosingStart(sql)]);
       before.Reading? && before.mode.LineComment?
  }

  /** Besides, the file's own COMMIT is a statement by itself before that comment. */
  predicate LeavesCommit(sql: string) {
    CommitCommentedOut(sql) && Run(Fresh([]), sql[..ClosingStart(sql)]).tokens == []
  }

  // ---------------------------------------------------------------------------------------------
  // What may stand inside
  // ---------------------------------------------------------------------------------------------

  /** The words that are refused inside are those of the statements that do something to the transaction. */
  lemma ControlExactlyWhenEffect(tokens: seq<Token>)
    ensures IsTransactionControl(tokens) <==> EffectOf(tokens) != Nothing
  {}

  /** A file is refused if any statement inside its wrapper has an effect on the transaction. */
  lemma EffectRefused(sql: string, i: nat)
    requires Lex(sql).Ok? && 0 < i < |Lex(sql).value| - 1 && EffectOf(Lex(sql).value[i].tokens) != Nothing
    ensures Unwrap(sql).Err?
    ensures |Lex(sql).value| >= 3 && Lex(sql).value[0].tokens == BEGIN && Lex(sql).value[|Lex(sql).value| - 1].tokens == COMMIT
            ==> Unwrap(sql) == Err(InnerControl)
  {
    hide EffectOf, IsTransactionControl, Lex, OpeningEnd, ClosingStart, Body;
    var statements := Lex(sql).value;
    ControlExactlyWhenEffect(statements[i].tokens);
    assert Middle(statements)[i - 1] == statements[i];
  }

  /** Statements without such words after BEGIN leave the one transaction open. */
  lemma NoControlStaysInside(statements: seq<Statement>, k: nat)
    requires 0 < k <= |statements| && statements[0].tokens == BEGIN
    requires forall i :: 0 < i < k ==> !IsTransactionControl(statements[i].tokens)
    ensures StatusAfter(statements[..k]) == Inside(true)
  {
    assert EffectOf(BEGIN) == Opens;
    forall i | 0 < i < k ensures EffectOf(statements[i].tokens) == Nothing { ControlExactlyWhenEffect(statements[i].tokens); }
    StaysInside(statements, k);
  }

  lemma CommitEnds()
    ensures EffectOf(COMMIT) == Ends(false) && IsTransactionControl(COMMIT)
  {
    assert COMMIT[1..] == [];
  }

  // ---------------------------------------------------------------------------------------------
  // The wrapper's two ends
  // ---------------------------------------------------------------------------------------------

  lemma LetterWord(word: string, lower: string)
    requires Casefold(word) == lower && lower != ""
    requires forall i :: 0 <= i < |lower| ==> 'a' <= lower[i] <= 'z'
    ensures IsWord(word)
  {
    forall i | 0 <= i < |word| ensures IsAlpha(word[i]) { assert Lower(word[i]) == lower[i]; }
  }

  lemma Cut(s: string, i: nat, j: nat)
    requires i <= j <= |s|
    ensures s[i..] == s[i..j] + s[j..]
    ensures s[..j] == s[..i] + s[i..j]
  {}

  lemma OpeningParts(sql: string) returns (mark: string, gap: string, word: string, space: string)
    requires OpeningEnd(sql) >= 0
    ensures mark == "" || mark == [BYTE_ORDER_MARK]
    ensures IsBlank(gap) && IsBlank(space) && Casefold(word) == "begin"
    ensures sql[..OpeningEnd(sql)] == mark + gap + (word + space + ";")
  {
    hide SkipSpace, Casefold;
    var a := if sql != "" && sql[0] == BYTE_ORDER_MARK then 1 else 0;
    var b := SkipSpace(sql, a);
    var c := b + 5;
    var d := SkipSpace(sql, c);
    mark, gap, word, space := sql[..a], sql[a..b], sql[b..c], sql[c..d];
    assert sql[..d + 1] == sql[..d] + ";";
    assert sql[..b] == mark + gap;
    assert sql[..d] == sql[..b] + (word + space);
    Assoc(mark + gap, word + space, ";");
  }

  lemma ClosingParts(sql: string) returns (word: string, gap: string, tail: string)
    requires ClosingStart(sql) >= 0
    ensures IsBlank(gap) && IsBlank(tail) && Casefold(word) == "commit"
    ensures sql[ClosingStart(sql)..] == word + ((gap + ";") + tail)
  {
    hide SkipSpaceBack, Casefold;
    var d := SkipSpaceBack(sql, |sql|);
    var c := SkipSpaceBack(sql, d - 1);
    var b := c - 6;
    word, gap, tail := sql[b..c], sql[c..d - 1], sql[d..|sql|];
    assert sql[d - 1..d] == ";";
    CutThree(sql, b, c, d);
  }

  lemma CutThree(s: string, b: nat, c: nat, d: nat)
    requires b <= c < d <= |s|
    ensures s[b..] == s[b..c] + ((s[c..d - 1] + s[d - 1..d]) + s[d..|s|])
  {
    assert s[c..d - 1] + s[d - 1..d] == s[c..d];
    assert s[c..d] + s[d..|s|] == s[c..];
  }

  lemma RunSpaces(raw: string, tokens: seq<Token>, statements: seq<Statement>, blank: string)
    requires IsBlank(blank)
    ensures Run(Reading(Normal, raw, tokens, statements), blank) == Reading(Normal, raw + blank, tokens, statements)
  {
    RunInert(raw, tokens, statements, blank);
  }

  /** In code, blanks and a semicolon complete the statement. */
  lemma RunToSemicolon(s: State, gap: string)
    requires s.Reading? && InCode(s.mode) && IsBlank(gap)
    ensures Run(s, gap + ";") == Fresh(Split(s.raw + (gap + ";"), Pending(s), s.statements))
  {
    hide Run, Step, Split;
    if gap == "" {
      assert gap + ";" == ";" && s.raw + [';'] == s.raw + ";";
      RunChar(s, ';');
      StepInCode(s, ';');
    } else {
      SpacesToSemicolon(s, gap[0], gap[1..]);
      assert [gap[0]] + (gap[1..] + ";") == gap + ";";
    }
  }

  lemma SpacesToSemicolon(s: State, c: char, gap: string)
    requires s.Reading? && InCode(s.mode) && IsSpace(c) && IsBlank(gap)
    ensures Run(s, [c] + (gap + ";")) == Fresh(Split(s.raw + ([c] + (gap + ";")), Pending(s), s.statements))
  {
    hide Run;
    var tokens := Pending(s);
    var t := Reading(Normal, s.raw + [c], tokens, s.statements);
    StepInCode(s, c);
    RunChar(s, c);
    RunSpaces(t.raw, tokens, s.statements, gap);
    var u := t.(raw := t.raw + gap);
    RunChar(u, ';');
    RunThen(t, gap, u, ";", Step(u, ';'));
    RunThen(s, [c], t, gap + ";", Step(u, ';'));
    assert u.raw + [';'] == s.raw + ([c] + (gap + ";"));
  }

  /** From normal code, a word, blanks and a semicolon. */
  lemma RunLastWord(raw: string, tokens: seq<Token>, statements: seq<Statement>, word: string, gap: string)
    requires IsWord(word) && IsBlank(gap)
    ensures Run(Reading(Normal, raw, tokens, statements), word + (gap + ";"))
         == Fresh(statements + [Statement(Strip(raw + (word + (gap + ";"))), tokens + [Casefold(word)])])
  {
    hide Run;
    var t := Reading(Word(word), raw + word, tokens, statements);
    RunWord(raw, tokens, statements, word);
    RunToSemicolon(t, gap);
    Assoc(raw, word, gap + ";");
    RunThen(Reading(Normal, raw, tokens, statements), word, t, gap + ";", Run(t, gap + ";"));
  }

  /** A one-word statement at the start of a statement. */
  lemma RunOneWord(statements: seq<Statement>, word: string) returns (statement: Statement)
    requires IsWord(word) && Casefold(word) == word
    ensures statement.tokens == [word]
    ensures Run(Fresh(statements), word + ";") == Fresh(statements + [statement])
  {
    hide Run;
    RunLastWord("", [], statements, word, "");
    assert "" + ";" == ";";
    statement := Statement(Strip("" + (word + ("" + ";"))), [] + [Casefold(word)]);
    assert [] + [word] == [word];
  }

  /** The opening of the wrapper is one BEGIN statement. */
  lemma RunOpening(sql: string) returns (begin: Statement)
    requires OpeningEnd(sql) >= 0
    ensures begin.tokens == BEGIN
    ensures Run(Fresh([]), sql[..OpeningEnd(sql)]) == Fresh([begin])
  {
    hide Run;
    var mark, gap, word, space := OpeningParts(sql);
    LetterWord(word, "begin");
    RunInert("", [], [], mark + gap);
    assert "" + (mark + gap) == mark + gap;
    RunLastWord(mark + gap, [], [], word, space);
    begin := Statement(Strip((mark + gap) + (word + (space + ";"))), [Casefold(word)]);
    assert [] + [begin] == [begin] && [] + [Casefold(word)] == [Casefold(word)];
    Assoc(word, space, ";");
    RunThen(Fresh([]), mark + gap, Reading(Normal, mark + gap, [], []), word + (space + ";"), Fresh([begin]));
  }

  // ---------------------------------------------------------------------------------------------
  // Files that are refused
  // ---------------------------------------------------------------------------------------------

  /** Three statements in the wrapper. */
  function ThreeInside(first: seq<Piece>, second: seq<Piece>, third: seq<Piece>): string {
    "begin;" + (RenderAll(first) + ";") + (RenderAll(second) + ";") + (RenderAll(third) + ";") + "commit;"
  }

  predicate IsStatement(ps: seq<Piece>) {
    ps != [] && ps[0].Code? && forall i :: 0 <= i < |ps| ==> Readable(ps[i])
  }

  lemma RunStatementAlone(statements: seq<Statement>, ps: seq<Piece>) returns (statement: Statement)
    requires IsStatement(ps)
    ensures statement.tokens == TokensOf(ps) && statement.tokens != [] && statement.tokens[0] == Casefold(ps[0].word)
    ensures Run(Fresh(statements), RenderAll(ps) + ";") == Fresh(statements + [statement])
  {
    hide Run, RenderAll, Readable, Casefold;
    RunStatement("", [], statements, ps);
    assert [] + TokensOf(ps) == TokensOf(ps);
    statement := Statement(Strip("" + RenderAll(ps) + ";"), TokensOf(ps));
  }

  lemma RunThreeInside(statements: seq<Statement>, first: seq<Piece>, second: seq<Piece>, third: seq<Piece>)
    returns (a: Statement, b: Statement, c: Statement)
    requires IsStatement(first) && IsStatement(second) && IsStatement(third)
    ensures b.tokens == TokensOf(second) && b.tokens != [] && b.tokens[0] == Casefold(second[0].word)
    ensures Run(Fresh(statements), (RenderAll(first) + ";") + (RenderAll(second) + ";") + (RenderAll(third) + ";"))
         == Fresh(statements + [a] + [b] + [c])
  {
    hide *;
    a := RunStatementAlone(statements, first);
    b := RunStatementAlone(statements + [a], second);
    c := RunStatementAlone(statements + [a] + [b], third);
    RunThen(Fresh(statements), RenderAll(first) + ";", Fresh(statements + [a]), RenderAll(second) + ";",
            Fresh(statements + [a] + [b]));
    RunThen(Fresh(statements), (RenderAll(first) + ";") + (RenderAll(second) + ";"), Fresh(statements + [a] + [b]),
            RenderAll(third) + ";", Fresh(statements + [a] + [b] + [c]));
  }

  lemma WrapperWords()
    ensures IsWord("begin") && IsWord("commit") && Casefold("begin") == "begin" && Casefold("commit") == "commit"
    ensures "begin" + ";" == "begin;" && "commit" + ";" == "commit;" && ["begin"] == BEGIN && ["commit"] == COMMIT
  {
    LetterWord("begin", "begin");
    LetterWord("commit", "commit");
  }

  lemma LexesThree(first: seq<Piece>, second: seq<Piece>, third: seq<Piece>) returns (statements: seq<Statement>)
    requires IsStatement(first) && IsStatement(second) && IsStatement(third)
    ensures Lex(ThreeInside(first, second, third)) == Ok(statements) && |statements| == 5
    ensures statements[0].tokens == BEGIN && statements[4].tokens == COMMIT
    ensures statements[2].tokens != [] && statements[2].tokens[0] == Casefold(second[0].word)
  {
    hide Run, RenderAll, IsStatement, Casefold, TokensOf, IsWord;
    WrapperWords();
    var inside := (RenderAll(first) + ";") + (RenderAll(second) + ";") + (RenderAll(third) + ";");
    var begin := RunOneWord([], "begin");
    assert [] + [begin] == [begin];
    var a, b, c := RunThreeInside([begin], first, second, third);
    RunThen(Fresh([]), "begin;", Fresh([begin]), inside, Fresh([begin] + [a] + [b] + [c]));
    var commit := RunOneWord([begin] + [a] + [b] + [c], "commit");
    statements := [begin] + [a] + [b] + [c] + [commit];
    RunThen(Fresh([]), "begin;" + inside, Fresh([begin] + [a] + [b] + [c]), "commit;", Fresh(statements));
    FourParts("begin;", RenderAll(first) + ";", RenderAll(second) + ";", RenderAll(third) + ";");
  }

  lemma FourParts(a: string, b: string, c: string, d: string)
    ensures a + b + c + d == a + (b + c + d)
  {}

  /** Whatever else stands around it, a statement that starts with one of these words, in any case, is refused inside. */
  lemma ControlWordRefused(first: seq<Piece>, second: seq<Piece>, third: seq<Piece>)
    requires IsStatement(first) && IsStatement(second) && IsStatement(third)
    requires Casefold(second[0].word) in
             ["abort", "begin", "commit", "end", "prepare", "release", "rollback", "savepoint", "start"]
    ensures Unwrap(ThreeInside(first, second, third)) == Err(InnerControl)
  {
    var statements := LexesThree(first, second, third);
    hide ThreeInside, Lex, IsStatement, Casefold, TokensOf, OpeningEnd, ClosingStart, Body;
    assert Middle(statements)[1] == statements[2];
  }

  /** The escapes that the deployer's own tests name: each leaves the one transaction. */
  lemma EscapesHaveEffect()
    ensures EffectOf(["commit"]) == Ends(false) && EffectOf(["end"]) == Ends(false)
    ensures EffectOf(["commit", "and", "chain"]) == Ends(true)
    ensures EffectOf(["rollback", "to", "savepoint", "risky"]) == MovesSavepoint
  {
    assert ["commit"][1..] == [] && ["end"][1..] == [];
    assert ["commit", "and", "chain"][1..] == ["and", "chain"];
    assert ["rollback", "to", "savepoint", "risky"][1..] == ["to", "savepoint", "risky"];
  }

  // ---------------------------------------------------------------------------------------------
  // Reading the closing COMMIT from whatever state the text before it leaves
  // ---------------------------------------------------------------------------------------------

  /** Letters that an ended tag or word would have in front of a word that follows it at once. */
  function Lead(mode: Mode): string {
    match mode
    case Word(w) => w
    case DollarTag(tag) => tag
    case _ => ""
  }

  lemma RunWordInCode(s: State, word: string)
    requires s.Reading? && InCode(s.mode) && word != "" && forall i :: 0 <= i < |word| ==> IsAlpha(word[i])
    ensures
      var t := Run(s, word);
      && t.Reading? && InCode(t.mode) && t.raw == s.raw + word && t.statements == s.statements
      && Pending(t) == s.tokens + [Casefold(Lead(s.mode) + word)]
  {
    hide Run;
    var first, rest := [word[0]], word[1..];
    var t := Reading(Grow(s.mode, first), s.raw + first, s.tokens, s.statements);
    FirstLetter(s, word[0]);
    RunChar(s, word[0]);
    GrowRun(t, rest);
    RunThen(s, first, t, rest, Run(t, rest));
    assert first + rest == word;
    Assoc(s.raw, first, rest);
    Assoc(Lead(s.mode), first, rest);
  }

  lemma FirstLetter(s: State, c: char)
    requires s.Reading? && InCode(s.mode) && IsAlpha(c)
    ensures Step(s, c) == Reading(Grow(s.mode, [c]), s.raw + [c], s.tokens, s.statements)
  {
    assert "" + [c] == [c];
  }

  function Grow(mode: Mode, letters: string): Mode {
    if mode.DollarTag? then DollarTag(mode.tag + letters) else Word(Lead(mode) + letters)
  }

  lemma {:induction false} GrowRun(s: State, rest: string)
    requires s.Reading? && (s.mode.Word? || (s.mode.DollarTag? && s.mode.tag != ""))
    requires forall i :: 0 <= i < |rest| ==> IsAlpha(rest[i])
    ensures Run(s, rest) == s.(mode := Grow(s.mode, rest), raw := s.raw + rest)
    decreases |rest|
  {
    if rest == "" {
      assert s.raw + "" == s.raw && Lead(s.mode) + "" == Lead(s.mode);
    } else {
      assert (s.raw + [rest[0]]) + rest[1..] == s.raw + rest;
      assert (Lead(s.mode) + [rest[0]]) + rest[1..] == Lead(s.mode) + rest;
      GrowRun(Step(s, rest[0]), rest[1..]);
    }
  }

  lemma Letters(word: string, lower: string)
    requires Casefold(word) == lower && forall i :: 0 <= i < |lower| ==> 'a' <= lower[i] <= 'z'
    ensures forall i :: 0 <= i < |word| ==> IsAlpha(word[i])
  {
    forall i | 0 <= i < |word| ensures IsAlpha(word[i]) { assert Lower(word[i]) == lower[i]; }
  }

  /** In code, the closing COMMIT completes a statement of the pending tokens and one word. */
  lemma ClosingInCode(s: State, word: string, gap: string, tail: string)
    requires s.Reading? && InCode(s.mode) && Casefold(word) == "commit" && IsBlank(gap) && IsBlank(tail)
    ensures
      var tokens := s.tokens + [Casefold(Lead(s.mode) + word)];
      Outcome(s, word + ((gap + ";") + tail)) == Ok(s.statements + [Statement(Strip((s.raw + word) + (gap + ";")), tokens)])
  {
    hide Run;
    Letters(word, "commit");
    RunWordInCode(s, word);
    var t := Run(s, word);
    RunToSemicolon(t, gap);
    var done := Run(t, gap + ";").statements;
    RunSpaces("", [], done, tail);
    assert "" + tail == tail;
    var u := Reading(Normal, tail, [], done);
    RunThen(t, gap + ";", Fresh(done), tail, u);
    RunThen(s, word, t, (gap + ";") + tail, u);
  }

  /** What is left of a line comment, or of the code after it. */
  ghost predicate Trailing(s: State, tokens: seq<Token>, statements: seq<Statement>) {
    s.Reading? && (s.mode.LineComment? || s.mode.Normal?) && s.tokens == tokens && s.statements == statements
  }

  lemma {:induction false} TrailingRun(s: State, text: string)
    requires s.Reading? && Trailing(s, s.tokens, s.statements)
    requires s.mode.Normal? ==> IsBlank(text)
    requires forall i :: 0 <= i < |text| ==> text[i] != '\n' || IsBlank(text[i..])
    ensures Trailing(Run(s, text), s.tokens, s.statements)
    decreases |text|
  {
    if text != "" {
      assert forall i :: 0 <= i < |text[1..]| ==> text[1..][i..] == text[i + 1..];
      if s.mode.Normal? {
        assert IsSpace(text[0]) && IsBlank(text[1..]);
      } else if text[0] == '\n' {
        assert text[0..] == text;
      }
      TrailingRun(Step(s, text[0]), text[1..]);
    }
  }

  /** In a line comment, the closing COMMIT completes only what was pending before the comment. */
  lemma ClosingInComment(s: State, word: string, gap: string, tail: string)
    requires s.Reading? && s.mode.LineComment? && Casefold(word) == "commit" && IsBlank(gap) && IsBlank(tail)
    ensures
      var r := Outcome(s, word + ((gap + ";") + tail));
      && r.Ok?
      && (s.tokens == [] ==> r.value == s.statements)
      && (s.tokens != [] ==> exists raw :: r.value == s.statements + [Statement(raw, s.tokens)])
  {
    Letters(word, "commit");
    assert forall i :: 0 <= i < |word| ==> word[i] != '\n';
    TrailingRun(s, word);
    var t := Run(s, word);
    assert t.mode.LineComment? by { CommentStays(s, word); }
    forall i | 0 <= i < |gap| ensures IsBlank(gap[i..]) {}
    TrailingRun(t, gap);
    var u := Run(t, gap);
    RunChar(u, ';');
    RunThen(t, gap, u, ";", Step(u, ';'));
    forall i | 0 <= i < |tail| ensures IsBlank(tail[i..]) {}
    var v := Step(u, ';');
    TrailingRun(v, tail);
    RunThen(t, gap + ";", v, tail, Run(v, tail));
    RunThen(s, word, t, (gap + ";") + tail, Run(v, tail));
  }

  lemma {:induction false} CommentStays(s: State, text: string)
    requires s.Reading? && s.mode.LineComment? && forall i :: 0 <= i < |text| ==> text[i] != '\n'
    ensures Run(s, text).Reading? && Run(s, text).mode.LineComment?
    decreases |text|
  {
    if text != "" { CommentStays(Step(s, text[0]), text[1..]); }
  }

  /** Inside a comment block, string, identifier or dollar quote. */
  predicate Enclosed(mode: Mode) {
    !InCode(mode) && !mode.LineComment?
  }

  /** No closing COMMIT gets out of those: the file is refused. */
  lemma {:induction false} EnclosedRefused(s: State, text: string)
    requires s.Reading? && Enclosed(s.mode) && WellFormed(s)
    requires forall i :: 0 <= i < |text| ==> IsAlpha(text[i]) || IsSpace(text[i]) || text[i] == ';'
    ensures Outcome(s, text).Err?
    decreases |text|
  {
    if text != "" {
      EnclosedRefused(Step(s, text[0]), text[1..]);
    }
  }
}
