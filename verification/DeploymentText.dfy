/** The request the deployer sends for one migration, and why it is one atomic transaction. */
module DeploymentText {
  import opened Text
  import opened SqlLexer
  import opened LexerLaws
  import opened SqlLiteral
  import opened SqlPieces
  import opened SqlItems
  import opened Transaction

  /** A row of the history table: version and checksum. */
  datatype Row = Row(version: string, sha256: string)

  predicate AllDigits(s: string) {
    forall i :: 0 <= i < |s| ==> IsDigit(s[i])
  }

  predicate IsHex(c: char) {
    IsDigit(c) || 'a' <= c <= 'f'
  }

  /** `[0-9]{12,20}` */
  predicate IsVersion(s: string) {
    12 <= |s| <= 20 && AllDigits(s)
  }

  /** `[0-9a-f]{64}` */
  predicate IsSha256(s: string) {
    |s| == 64 && forall i :: 0 <= i < |s| ==> IsHex(s[i])
  }

  predicate IsRow(row: Row) {
    IsVersion(row.version) && IsSha256(row.sha256)
  }

  const GUARD_TAG := "contentengine_deployment_guard"
  const GUARD_MARK := "$" + GUARD_TAG + "$"

  /** The exception of the guard, and the end of its test. */
  function RaisePieces(gap: string, last: string): seq<Piece> {
    [ Code("raise", " "), Code("exception", " "), Code("using", " "), Code("message", " = "),
      Value("deployment_history_changed_retry", gap), Code("end", " "), Code("if", last) ]
  }

  /** The test of the number of rows. */
  function CountPieces(n: nat): seq<Piece> {
    [ Code("begin", "\n  "), Code("if", " ("), Code("select", " "), Code("count", "(*) "), Code("from", " "),
      Code("contentengine_deploy", "."), Code("schema_migrations", ")\n       <> "), Count(n, " "), Code("then", "\n    ") ]
    + RaisePieces(";\n  ", ";\n  ")
  }

  function RowPair(row: Row, gap: string): seq<Piece> {
    [Value(row.version, ", "), Value(row.sha256, gap)]
  }

  /** The rows after the first parenthesis of their list, and the end of the list. */
  function RowPieces(rows: seq<Row>): seq<Piece> {
    if rows == [] then []
    else if |rows| == 1 then RowPair(rows[0], ")) ")
    else RowPair(rows[0], "),\n(") + RowPieces(rows[1..])
  }

  function MatchHead(): seq<Piece> {
    [ Code("if", " "), Code("exists", " (\n  "), Code("select", " "), Count(1, "\n  "), Code("from", " ("),
      Code("values", " (") ]
  }

  function JoinPieces(): seq<Piece> {
    [ Code("expected", "("), Code("version", ", "), Code("sha256", ")\n  "), Code("left", " "), Code("join", " "),
      Code("contentengine_deploy", "."), Code("schema_migrations", " "), Code("actual", "\n    ") ]
  }

  function OnPieces(): seq<Piece> {
    [ Code("on", " "), Code("actual", "."), Code("version", " = "), Code("expected", "."), Code("version", "\n  ") ]
  }

  function WherePieces(): seq<Piece> {
    [ Code("where", " "), Code("actual", "."), Code("sha256", " "), Code("is", " "), Code("distinct", " "),
      Code("from", " "), Code("expected", "."), Code("sha256", "\n) "), Code("then", "\n  ") ]
  }

  /** The left join that compares every expected row with the live table; none when no row is expected. */
  function MatchPieces(rows: seq<Row>): seq<Piece> {
    if rows == [] then []
    else MatchHead() + RowPieces(rows) + (JoinPieces() + OnPieces() + WherePieces()) + RaisePieces(";\n", ";")
  }

  function GuardPieces(rows: seq<Row>): seq<Piece> {
    CountPieces(|rows|) + MatchPieces(rows)
  }

  function GuardBody(rows: seq<Row>): string {
    "\n" + (RenderAll(GuardPieces(rows)) + ("\n" + "end;\n"))
  }

  function Guard(rows: seq<Row>): string {
    "do " + (GUARD_MARK + (GuardBody(rows) + GUARD_MARK)) + ";"
  }

  const LOCK_PIECES: seq<Piece> :=
    [ Code("select", " "), Code("pg_advisory_xact_lock", "("), Code("hashtextextended", "("),
      Value("contentengine_deploy:production", ", "), Count(0, "))") ]

  /** The statement that takes the one advisory lock of all deployments. */
  function LockText(): string {
    RenderAll(LOCK_PIECES) + ";"
  }

  const LOCK_TOKENS: seq<Token> := ["select", "pg_advisory_xact_lock", "hashtextextended"]
  const GUARD_TOKENS: seq<Token> := ["do", DOLLAR_QUOTE]

  function InsertPieces(row: Row): seq<Piece> {
    [ Code("insert", " "), Code("into", " "), Code("contentengine_deploy", "."), Code("schema_migrations", " ("),
      Code("version", ", "), Code("sha256", ")\n"), Code("values", " ("), Value(row.version, ", "), Value(row.sha256, ")") ]
  }

  const INSERT_TOKENS: seq<Token> := ["insert", "into", "contentengine_deploy", "schema_migrations", "version", "sha256", "values"]

  /** Lock and guard before the body. */
  function Preamble(rows: seq<Row>): string {
    "begin;" + ("\n" + RenderAll(LOCK_PIECES) + ";") + ("\n" + Guard(rows)) + "\n"
  }

  /** The receipt and COMMIT after it. */
  function Epilogue(row: Row): string {
    "\n" + (RenderAll(InsertPieces(row)) + ";") + ("\n\n" + "commit;")
  }

  /** The transaction for one pending migration, when the deployer expects the history to be `rows`. */
  function Request(rows: seq<Row>, body: string, row: Row): string {
    Preamble(rows) + body + Epilogue(row)
  }

  // ---------------------------------------------------------------------------------------------
  // The fixed parts
  // ---------------------------------------------------------------------------------------------

  lemma {:induction false} PlainDoubled(value: string)
    requires forall i :: 0 <= i < |value| ==> value[i] != '\''
    ensures Doubled(value) == value
  {
    if value != "" {
      PlainDoubled(value[1..]);
      assert value == [value[0]] + value[1..];
    }
  }

  predicate NoDollar(p: Piece) {
    DollarFree(Head(p)) && DollarFree(p.gap)
  }

  predicate NoDollars(ps: seq<Piece>) {
    forall i :: 0 <= i < |ps| ==> NoDollar(ps[i])
  }

  lemma {:induction false} PiecesDollarFree(ps: seq<Piece>)
    requires NoDollars(ps)
    ensures DollarFree(RenderAll(ps))
  {
    if ps != [] {
      assert NoDollar(ps[0]);
      DollarFreeConcat(Head(ps[0]), ps[0].gap);
      PiecesDollarFree(ps[1..]);
      DollarFreeConcat(Render(ps[0]), RenderAll(ps[1..]));
    }
  }

  /** A lower-case word that a dollar quote may hold. */
  predicate IsSayable(word: string) {
    IsPlain(word) && DollarFree(word)
  }

  predicate IsSeparator(gap: string) {
    gap != "" && AreSigns(gap)
  }

  /** A piece that a dollar quote may hold and that is read back as it is. */
  predicate Fits(p: Piece) {
    NoDollar(p) && Spoken(p) && (p.Code? ==> Casefold(p.word) == p.word)
  }

  predicate AllFit(ps: seq<Piece>) {
    forall i :: 0 <= i < |ps| ==> Fits(ps[i])
  }

  lemma AllFitConcat(a: seq<Piece>, b: seq<Piece>)
    requires AllFit(a) && AllFit(b)
    ensures AllFit(a + b)
  {}

  lemma CodeFits(word: string, gap: string)
    requires IsSayable(word) && IsSeparator(gap)
    ensures Fits(Code(word, gap))
  {
    forall i | 0 <= i < |gap| ensures gap[i] != '$' { assert IsSign(gap[i]); }
    assert IsWord(word);
  }

  lemma CodesFit()
    ensures forall word, gap :: IsSayable(word) && IsSeparator(gap) ==> Fits(Code(word, gap))
  {
    forall word, gap | IsSayable(word) && IsSeparator(gap) ensures Fits(Code(word, gap)) { CodeFits(word, gap); }
  }

  lemma CountFits(n: nat, gap: string)
    requires IsSeparator(gap)
    ensures Fits(Count(n, gap))
  {
    DecimalDigits(n);
    forall i | 0 <= i < |gap| ensures gap[i] != '$' { assert IsSign(gap[i]); }
  }

  lemma ValueFits(value: string, gap: string)
    requires IsSeparator(gap) && forall i :: 0 <= i < |value| ==> value[i] != '\'' && value[i] != '$'
    ensures Fits(Value(value, gap))
  {
    PlainDoubled(value);
    forall i | 0 <= i < |gap| ensures gap[i] != '$' { assert IsSign(gap[i]); }
  }

  lemma WordsA()
    ensures IsSayable("begin") && IsSayable("if") && IsSayable("select") && IsSayable("count")
  {}

  lemma WordsB()
    ensures IsSayable("from") && IsSayable("contentengine_deploy") && IsSayable("schema_migrations") && IsSayable("then")
  {}

  lemma WordsC()
    ensures IsSayable("raise") && IsSayable("exception") && IsSayable("using") && IsSayable("message")
  {}

  lemma WordsD()
    ensures IsSayable("end") && IsSayable("exists") && IsSayable("values") && IsSayable("expected")
  {}

  lemma WordsE()
    ensures IsSayable("version") && IsSayable("sha256") && IsSayable("left") && IsSayable("join")
  {}

  lemma WordsF()
    ensures IsSayable("actual") && IsSayable("on") && IsSayable("where") && IsSayable("is")
  {}

  lemma WordsG()
    ensures IsSayable("distinct")
  {}

  lemma GapsA()
    ensures IsSeparator(" ") && IsSeparator(".") && IsSeparator("\n  ") && IsSeparator(" (") && IsSeparator("(*) ") && IsSeparator(")\n       <> ")
  {}

  lemma GapsB()
    ensures IsSeparator("\n    ") && IsSeparator(" = ") && IsSeparator(";\n  ") && IsSeparator(" (\n  ") && IsSeparator("(") && IsSeparator(", ")
  {}

  lemma GapsC()
    ensures IsSeparator(")\n  ") && IsSeparator("\n) ") && IsSeparator(";\n") && IsSeparator(";")
  {}

  lemma Sayable()
    ensures IsSayable("begin") && IsSayable("if") && IsSayable("select") && IsSayable("count")
    ensures IsSayable("from") && IsSayable("contentengine_deploy") && IsSayable("schema_migrations") && IsSayable("then")
    ensures IsSayable("raise") && IsSayable("exception") && IsSayable("using") && IsSayable("message")
    ensures IsSayable("end") && IsSayable("exists") && IsSayable("values") && IsSayable("expected")
    ensures IsSayable("version") && IsSayable("sha256") && IsSayable("left") && IsSayable("join")
    ensures IsSayable("actual") && IsSayable("on") && IsSayable("where") && IsSayable("is")
    ensures IsSayable("distinct")
    ensures IsSeparator(" ") && IsSeparator(".") && IsSeparator("\n  ") && IsSeparator(" (") && IsSeparator("(*) ") && IsSeparator(")\n       <> ")
    ensures IsSeparator("\n    ") && IsSeparator(" = ") && IsSeparator(";\n  ") && IsSeparator(" (\n  ") && IsSeparator("(") && IsSeparator(", ")
    ensures IsSeparator(")\n  ") && IsSeparator("\n) ") && IsSeparator(";\n") && IsSeparator(";")
  {
    hide IsSayable, IsSeparator;
    WordsA();
    WordsB();
    WordsC();
    WordsD();
    WordsE();
    WordsF();
    WordsG();
    GapsA();
    GapsB();
    GapsC();
  }

  lemma RaiseFits(gap: string, last: string)
    requires IsSeparator(gap) && IsSeparator(last)
    ensures AllFit(RaisePieces(gap, last))
  {
    hide IsSayable, IsSeparator, Fits;
    RetryFits(gap);
    Sayable();
    CodesFit();
  }

  lemma RetryFits(gap: string)
    requires IsSeparator(gap)
    ensures Fits(Value("deployment_history_changed_retry", gap))
  {
    hide *;
    ValueFits("deployment_history_changed_retry", gap);
  }

  lemma CountPiecesFit(n: nat)
    ensures AllFit(CountPieces(n))
  {
    hide IsSayable, IsSeparator, Fits, RaisePieces;
    Sayable();
    CodesFit();
    CountFits(n, " ");
    RaiseFits(";\n  ", ";\n  ");
    var head := [ Code("begin", "\n  "), Code("if", " ("), Code("select", " "), Code("count", "(*) "), Code("from", " "),
      Code("contentengine_deploy", "."), Code("schema_migrations", ")\n       <> "), Count(n, " "), Code("then", "\n    ") ];
    assert AllFit(head);
    AllFitConcat(head, RaisePieces(";\n  ", ";\n  "));
  }

  lemma JoinFits()
    ensures AllFit(MatchHead()) && AllFit(JoinPieces()) && AllFit(OnPieces()) && AllFit(WherePieces())
  {
    hide IsSayable, IsSeparator, Fits;
    Sayable();
    CodesFit();
    CountFits(1, "\n  ");
  }

  lemma NoHexQuote()
    ensures forall c :: IsHex(c) ==> c != '\'' && c != '$'
  {}

  lemma {:induction false} RowsFit(rows: seq<Row>)
    requires forall i :: 0 <= i < |rows| ==> IsRow(rows[i])
    ensures AllFit(RowPieces(rows))
  {
    if rows != [] {
      assert IsRow(rows[0]);
      NoHexQuote();
      var gap := if |rows| == 1 then ")) " else "),\n(";
      assert IsSeparator(", ") && IsSeparator(gap);
      ValueFits(rows[0].version, ", ");
      ValueFits(rows[0].sha256, gap);
      RowsFit(rows[1..]);
      hide Fits, IsRow;
      assert AllFit(RowPair(rows[0], gap));
      AllFitConcat(RowPair(rows[0], gap), RowPieces(rows[1..]));
    }
  }

  lemma MatchFits(rows: seq<Row>)
    requires forall i :: 0 <= i < |rows| ==> IsRow(rows[i])
    ensures AllFit(MatchPieces(rows))
  {
    GapsC();
    RaiseFits(";\n", ";");
    JoinFits();
    RowsFit(rows);
    hide RowPieces, MatchHead, JoinPieces, OnPieces, WherePieces, RaisePieces, AllFit;
    assert AllFit([]) by { NothingFits(); }
    AllFitConcat(MatchHead(), RowPieces(rows));
    AllFitConcat(JoinPieces(), OnPieces());
    AllFitConcat(JoinPieces() + OnPieces(), WherePieces());
    var join := JoinPieces() + OnPieces() + WherePieces();
    AllFitConcat(MatchHead() + RowPieces(rows), join);
    AllFitConcat(MatchHead() + RowPieces(rows) + join, RaisePieces(";\n", ";"));
  }

  lemma NothingFits()
    ensures AllFit([])
  {}

  lemma GuardFits(rows: seq<Row>)
    requires forall i :: 0 <= i < |rows| ==> IsRow(rows[i])
    ensures AllFit(GuardPieces(rows))
  {
    hide AllFit, CountPieces, MatchPieces;
    CountPiecesFit(|rows|);
    MatchFits(rows);
    AllFitConcat(CountPieces(|rows|), MatchPieces(rows));
  }

  lemma GuardBodyDollarFree(rows: seq<Row>)
    requires forall i :: 0 <= i < |rows| ==> IsRow(rows[i])
    ensures DollarFree(GuardBody(rows))
  {
    assert DollarFree("\n") && DollarFree("\n" + "end;\n");
    GuardFits(rows);
    assert NoDollars(GuardPieces(rows));
    hide DollarFree, NoDollars;
    PiecesDollarFree(GuardPieces(rows));
    DollarFreeConcat(RenderAll(GuardPieces(rows)), "\n" + "end;\n");
    DollarFreeConcat("\n", RenderAll(GuardPieces(rows)) + ("\n" + "end;\n"));
  }

  // ---------------------------------------------------------------------------------------------
  // Before the body
  // ---------------------------------------------------------------------------------------------

  /** A lower-case word. */
  predicate IsPlain(word: string) {
    && word != "" && IsNameStart(word[0])
    && forall i :: 0 <= i < |word| ==> IsWordChar(word[i]) && Lower(word[i]) == word[i]
  }

  predicate IsGap(gap: string) {
    gap != "" && !IsDigit(gap[0]) && AllInert(gap)
  }

  lemma CodeReadable(word: string, gap: string)
    requires IsPlain(word) && IsGap(gap)
    ensures Readable(Code(word, gap)) && Casefold(word) == word
  {}

  lemma LockWords()
    ensures IsPlain("select") && IsPlain("pg_advisory_xact_lock") && IsPlain("hashtextextended")
  {}

  lemma InsertWords()
    ensures IsPlain("insert") && IsPlain("into") && IsPlain("contentengine_deploy") && IsPlain("schema_migrations")
  {}

  lemma InsertColumns()
    ensures IsPlain("version") && IsPlain("sha256") && IsPlain("values")
  {}

  lemma Gaps()
    ensures IsGap(" ") && IsGap("(") && IsGap(".") && IsGap(" (") && IsGap(", ") && IsGap(")\n") && IsGap(")")
  {}

  lemma LockValue()
    ensures Readable(Value("contentengine_deploy:production", ", ")) && Readable(Count(0, "))"))
  {}

  /** The tokens of pieces one by one. */
  lemma TokensStep(ps: seq<Piece>, i: nat)
    requires i < |ps|
    ensures TokensOf(ps[i..]) == (if ps[i].Code? then [Casefold(ps[i].word)] else []) + TokensOf(ps[i + 1..])
  {
    assert ps[i..][1..] == ps[i + 1..];
  }

  lemma LockReadable()
    ensures TokensOf(LOCK_PIECES) == LOCK_TOKENS
    ensures forall i :: 0 <= i < |LOCK_PIECES| ==> Readable(LOCK_PIECES[i])
  {
    hide Readable, Casefold, TokensOf, IsPlain, IsGap;
    LockWords();
    Gaps();
    LockValue();
    CodeReadable("select", " ");
    CodeReadable("pg_advisory_xact_lock", "(");
    CodeReadable("hashtextextended", "(");
    var ps := LOCK_PIECES;
    TokensStep(ps, 4);
    TokensStep(ps, 3);
    TokensStep(ps, 2);
    TokensStep(ps, 1);
    TokensStep(ps, 0);
    assert ps[0..] == ps && ps[5..] == [];
    NoTokens();
  }

  lemma NoTokens()
    ensures TokensOf([]) == []
  {}

  lemma RunNewline(statements: seq<Statement>)
    ensures Run(Fresh(statements), "\n") == Reading(Normal, "\n", [], statements) && Calm("\n")
  {
    RunSpaces("", [], statements, "\n");
    assert "" + "\n" == "\n";
  }

  /** A statement of pieces on its own line. */
  lemma RunLine(statements: seq<Statement>, ps: seq<Piece>)
    requires TokensOf(ps) != [] && forall i :: 0 <= i < |ps| ==> Readable(ps[i])
    ensures Run(Fresh(statements), "\n" + RenderAll(ps) + ";")
         == Fresh(statements + [Statement(Strip("\n" + RenderAll(ps) + ";"), TokensOf(ps))])
  {
    hide *;
    RunNewline(statements);
    RunStatement("\n", [], statements, ps);
    assert [] + TokensOf(ps) == TokensOf(ps);
    var done := Fresh(statements + [Statement(Strip("\n" + RenderAll(ps) + ";"), TokensOf(ps))]);
    RunThen(Fresh(statements), "\n", Reading(Normal, "\n", [], statements), RenderAll(ps) + ";", done);
    Assoc("\n", RenderAll(ps), ";");
  }

  lemma LockStripped()
    ensures Strip("\n" + RenderAll(LOCK_PIECES) + ";") == LockText()
  {
    LockStarts();
    hide RenderAll, Strip;
    StripUnique("\n", LockText(), "");
    assert "\n" + LockText() + "" == "\n" + RenderAll(LOCK_PIECES) + ";";
  }

  lemma LockStarts()
    ensures RenderAll(LOCK_PIECES) != "" && RenderAll(LOCK_PIECES)[0] == 's'
  {
    assert Render(LOCK_PIECES[0])[0] == 's';
  }

  lemma RunLock(statements: seq<Statement>) returns (lock: Statement)
    ensures lock == Statement(LockText(), LOCK_TOKENS)
    ensures Run(Fresh(statements), "\n" + RenderAll(LOCK_PIECES) + ";") == Fresh(statements + [lock])
  {
    LockStripped();
    hide Run, RenderAll, TokensOf, Readable;
    LockReadable();
    RunLine(statements, LOCK_PIECES);
    lock := Statement(Strip("\n" + RenderAll(LOCK_PIECES) + ";"), LOCK_TOKENS);
  }

  lemma GuardTag()
    ensures IsTag(GUARD_TAG)
  {}

  lemma RunDo(statements: seq<Statement>)
    ensures Run(Fresh(statements), "\n" + "do ") == Reading(Normal, "\n" + "do ", ["do"], statements)
  {
    hide Run;
    RunNewline(statements);
    var p := Code("do", " ");
    RunPiece("\n", [], statements, p);
    assert Render(p) == "do " && TokensOf([p]) == ["do"] && [] + ["do"] == ["do"] by {
      assert [p][1..] == [] && Casefold("do") == "do";
    }
    RunThen(Fresh(statements), "\n", Reading(Normal, "\n", [], statements), "do ", Reading(Normal, "\n" + "do ", ["do"], statements));
  }

  lemma GuardStripped(rows: seq<Row>)
    ensures Strip("\n" + Guard(rows)) == Guard(rows)
  {
    hide GuardBody, Strip;
    StripUnique("\n", Guard(rows), "");
    assert "\n" + Guard(rows) + "" == "\n" + Guard(rows);
  }

  lemma GuardParts(rows: seq<Row>)
    ensures
      var quote := GUARD_MARK + (GuardBody(rows) + GUARD_MARK);
      (("\n" + "do ") + quote) + ";" == "\n" + Guard(rows)
    ensures ["do"] + [DOLLAR_QUOTE] == GUARD_TOKENS && "" + ";" == ";"
  {
    hide GuardBody;
  }

  lemma RunGuard(statements: seq<Statement>, rows: seq<Row>) returns (guard: Statement)
    requires forall i :: 0 <= i < |rows| ==> IsRow(rows[i])
    ensures guard == Statement(Guard(rows), GUARD_TOKENS)
    ensures Run(Fresh(statements), "\n" + Guard(rows)) == Fresh(statements + [guard])
  {
    var raw := "\n" + "do ";
    var quote := GUARD_MARK + (GuardBody(rows) + GUARD_MARK);
    var s := Reading(Normal, raw, ["do"], statements);
    var t := Reading(Normal, raw + quote, GUARD_TOKENS, statements);
    guard := Statement(Guard(rows), GUARD_TOKENS);
    GuardTag();
    GuardParts(rows);
    GuardEnds(t, rows, guard);
    hide *;
    GuardBodyDollarFree(rows);
    RunDo(statements);
    RunDollarQuote(raw, ["do"], statements, GUARD_TAG, GuardBody(rows));
    RunThen(Fresh(statements), raw, s, quote, t);
    RunThen(Fresh(statements), raw + quote, t, ";", Fresh(statements + [guard]));
  }

  lemma GuardEnds(t: State, rows: seq<Row>, guard: Statement)
    requires t.Reading? && t.mode == Normal && t.tokens == GUARD_TOKENS && guard == Statement(Guard(rows), GUARD_TOKENS)
    requires t.raw + ";" == "\n" + Guard(rows)
    ensures Run(t, ";") == Fresh(t.statements + [guard])
  {
    hide Run, Guard, Strip;
    GuardStripped(rows);
    RunToSemicolon(t, "");
    assert "" + ";" == ";";
  }

  lemma RunPreamble(rows: seq<Row>) returns (head: seq<Statement>)
    requires forall i :: 0 <= i < |rows| ==> IsRow(rows[i])
    ensures |head| == 3
    ensures head[0].tokens == BEGIN
    ensures head[1] == Statement(LockText(), LOCK_TOKENS) && head[2] == Statement(Guard(rows), GUARD_TOKENS)
    ensures Run(Fresh([]), Preamble(rows)) == Reading(Normal, "\n", [], head)
  {
    hide Run, RenderAll, Guard, LockText;
    LetterWord("begin", "begin");
    var begin := RunOneWord([], "begin");
    assert "begin" + ";" == "begin;" && [] + [begin] == [begin];
    var lockText := "\n" + RenderAll(LOCK_PIECES) + ";";
    var lock := RunLock([begin]);
    RunThen(Fresh([]), "begin;", Fresh([begin]), lockText, Fresh([begin] + [lock]));
    var guard := RunGuard([begin] + [lock], rows);
    head := [begin] + [lock] + [guard];
    RunThen(Fresh([]), "begin;" + lockText, Fresh([begin] + [lock]), "\n" + Guard(rows), Fresh(head));
    RunNewline(head);
    RunThen(Fresh([]), "begin;" + lockText + ("\n" + Guard(rows)), Fresh(head), "\n", Reading(Normal, "\n", [], head));
  }

  // ---------------------------------------------------------------------------------------------
  // After the body
  // ---------------------------------------------------------------------------------------------

  lemma HexUnambiguous(value: string)
    requires forall i :: 0 <= i < |value| ==> IsHex(value[i])
    ensures Unambiguous(value)
  {}

  lemma InsertReadable(row: Row)
    requires IsRow(row)
    ensures forall i :: 0 <= i < |InsertPieces(row)| ==> Readable(InsertPieces(row)[i])
  {
    hide Casefold, IsPlain, IsGap;
    HexUnambiguous(row.version);
    HexUnambiguous(row.sha256);
    InsertWords();
    InsertColumns();
    Gaps();
    ValueReadable(row.version, ", ");
    ValueReadable(row.sha256, ")");
    CodeReadable("insert", " ");
    CodeReadable("into", " ");
    CodeReadable("contentengine_deploy", ".");
    CodeReadable("schema_migrations", " (");
    CodeReadable("version", ", ");
    CodeReadable("sha256", ")\n");
    CodeReadable("values", " (");
    hide Readable;
  }

  lemma ValueReadable(value: string, gap: string)
    requires Unambiguous(value) && IsGap(gap)
    ensures Readable(Value(value, gap))
  {}

  lemma PlainTokens()
    ensures Casefold("insert") == "insert" && Casefold("into") == "into"
    ensures Casefold("contentengine_deploy") == "contentengine_deploy"
    ensures Casefold("schema_migrations") == "schema_migrations"
    ensures Casefold("version") == "version" && Casefold("sha256") == "sha256" && Casefold("values") == "values"
  {
    hide Casefold, IsPlain, IsGap, Readable;
    InsertWords();
    InsertColumns();
    Gaps();
    CodeReadable("insert", " ");
    CodeReadable("into", " ");
    CodeReadable("contentengine_deploy", ".");
    CodeReadable("schema_migrations", " (");
    CodeReadable("version", ", ");
    CodeReadable("sha256", ")\n");
    CodeReadable("values", " (");
  }

  lemma InsertTokens(row: Row)
    ensures TokensOf(InsertPieces(row)) == INSERT_TOKENS
  {
    hide TokensOf, Casefold;
    var ps := InsertPieces(row);
    InsertLastTokens(row);
    PlainTokens();
    TokensStep(ps, 3);
    TokensStep(ps, 2);
    TokensStep(ps, 1);
    TokensStep(ps, 0);
    assert ps[0..] == ps;
  }

  lemma InsertLastTokens(row: Row)
    ensures TokensOf(InsertPieces(row)[4..]) == ["version", "sha256", "values"]
  {
    hide TokensOf, Casefold;
    var ps := InsertPieces(row);
    TokensStep(ps, 8);
    TokensStep(ps, 7);
    TokensStep(ps, 6);
    TokensStep(ps, 5);
    TokensStep(ps, 4);
    assert ps[9..] == [];
    NoTokens();
    PlainTokens();
  }
}
