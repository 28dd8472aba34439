/** When the request composed around an accepted migration is one atomic transaction: exactly when the COMMIT
    that ends the file is not itself commented out. */
module AtomicRequest {
  import opened Text
  import opened SqlLexer
  import opened LexerLaws
  import opened SqlPieces
  import opened TransactionStatus
  import opened Transaction
  import opened DeploymentText
  import opened SqlItems
  import opened RequestReading

  /** Nothing of the open statement would become a token; a line comment may still be open. */
  ghost predicate Quiet(s: State, statements: seq<Statement>) {
    && s.Reading?
    && s.statements == statements
    && ((InCode(s.mode) && Pending(s) == []) || (s.mode.LineComment? && s.tokens == []))
  }

  /** In a line comment after these tokens. */
  ghost predicate Commented(s: State, tokens: seq<Token>, statements: seq<Statement>) {
    s.Reading? && s.mode.LineComment? && s.tokens == tokens && s.statements == statements
  }

  lemma SpaceBack(s: State, c: char, tokens: seq<Token>, statements: seq<Statement>)
    requires WellFormed(s) && IsSpace(c)
    ensures Quiet(Step(s, c), statements) ==> Quiet(s, statements)
    ensures Commented(Step(s, c), tokens, statements) ==> Commented(s, tokens, statements)
  {}

  /** What holds after trailing blanks held before them. */
  lemma {:induction false} BlankBack(s: State, blank: string, tokens: seq<Token>, statements: seq<Statement>)
    requires WellFormed(s) && IsBlank(blank)
    ensures Quiet(Run(s, blank), statements) ==> Quiet(s, statements)
    ensures Commented(Run(s, blank), tokens, statements) ==> Commented(s, tokens, statements)
    decreases |blank|
  {
    if blank != "" {
      assert WellFormed(Step(s, blank[0])) by { WellFormedRun(s, [blank[0]]); RunChar(s, blank[0]); }
      BlankBack(Step(s, blank[0]), blank[1..], tokens, statements);
      SpaceBack(s, blank[0], tokens, statements);
    }
  }

  /** Stripping the text between BEGIN and COMMIT leaves the splitter in the same place. */
  lemma StrippedBody(middle: string, tokens: seq<Token>, statements: seq<Statement>)
    ensures Quiet(Run(Fresh([]), middle), statements) ==> Quiet(Run(Fresh([]), Strip(middle)), statements)
    ensures Commented(Run(Fresh([]), middle), tokens, statements) ==> Commented(Run(Fresh([]), Strip(middle)), tokens, statements)
  {
    hide Run, Step;
    var before, after := StripParts(middle);
    var body := Strip(middle);
    var s := Reading(Normal, before, [], []);
    RunSpaces("", [], [], before);
    assert "" + before == before && before + "" == before;
    var left := ShiftedRun(s, Fresh([]), [], before, body + after);
    Assoc(before, body, after);
    RunThen(Fresh([]), before, s, body + after, Run(s, body + after));
    var n := Run(Fresh([]), body + after);
    ShiftedQuiet(Run(Fresh([]), middle), n, left, tokens, statements);
    RunConcat(Fresh([]), body, after);
    WellFormedRun(Fresh([]), body);
    BlankBack(Run(Fresh([]), body), after, tokens, statements);
  }

  lemma ShiftedQuiet(s: State, t: State, blank: string, tokens: seq<Token>, statements: seq<Statement>)
    requires Shifted(s, t, [], blank)
    ensures Quiet(s, statements) ==> Quiet(t, statements)
    ensures Commented(s, tokens, statements) ==> Commented(t, tokens, statements)
  {
    if s.Reading? { assert [] + t.statements == t.statements; }
  }

  // ---------------------------------------------------------------------------------------------
  // An accepted file
  // ---------------------------------------------------------------------------------------------

  function Before(sql: string): string
    requires 0 <= ClosingStart(sql)
  {
    sql[..ClosingStart(sql)]
  }

  function Between(sql: string): string
    requires 0 <= OpeningEnd(sql) <= ClosingStart(sql)
  {
    sql[OpeningEnd(sql)..ClosingStart(sql)]
  }

  /** The text between the wrapper's ends, read on its own, differs from the file read so far by the BEGIN. */
  lemma BetweenAlone(sql: string) returns (begin: Statement)
    requires 0 <= OpeningEnd(sql) <= ClosingStart(sql)
    ensures begin.tokens == BEGIN
    ensures
      var s, t := Run(Fresh([]), Before(sql)), Run(Fresh([]), Between(sql));
      if s.Rejected? || t.Rejected? then s == t
      else s.mode == t.mode && s.tokens == t.tokens && s.statements == [begin] + t.statements
  {
    hide Run, OpeningEnd, ClosingStart;
    begin := RunOpening(sql);
    var opening := sql[..OpeningEnd(sql)];
    Cut(sql, OpeningEnd(sql), ClosingStart(sql));
    RunThen(Fresh([]), opening, Fresh([begin]), Between(sql), Run(Fresh([begin]), Between(sql)));
    assert [begin] + [] == [begin] && "" + "" == "";
    var left := ShiftedRun(Fresh([begin]), Fresh([]), [begin], "", Between(sql));
  }

  lemma ClosingChars(word: string, gap: string, tail: string)
    requires Casefold(word) == "commit" && IsBlank(gap) && IsBlank(tail)
    ensures var text := word + ((gap + ";") + tail); forall i :: 0 <= i < |text| ==> IsAlpha(text[i]) || IsSpace(text[i]) || text[i] == ';'
  {
    Letters(word, "commit");
    var rest := (gap + ";") + tail;
    forall i | 0 <= i < |rest| ensures IsSpace(rest[i]) || rest[i] == ';' {}
    forall i | |word| <= i < |word + rest| ensures IsSpace((word + rest)[i]) || (word + rest)[i] == ';' {
      assert (word + rest)[i] == rest[i - |word|];
    }
  }

  lemma AcceptedStatements(sql: string)
    requires Unwrap(sql).Ok?
    ensures Lex(sql).Ok? && |Lex(sql).value| >= 3 && !Controls(Middle(Lex(sql).value))
    ensures Lex(sql).value[|Lex(sql).value| - 1].tokens == COMMIT
    ensures 0 <= OpeningEnd(sql) <= ClosingStart(sql)
    ensures Unwrap(sql).value == Strip(Between(sql))
  {}

  /** A file is the text before its closing COMMIT and then that. */
  lemma ClosingSplit(sql: string) returns (word: string, gap: string, tail: string)
    requires 0 <= ClosingStart(sql)
    ensures IsBlank(gap) && IsBlank(tail) && Casefold(word) == "commit"
    ensures Lex(sql) == Outcome(Run(Fresh([]), Before(sql)), word + ((gap + ";") + tail))
  {
    word, gap, tail := ClosingParts(sql);
    hide Run, ClosingStart;
    var closing := word + ((gap + ";") + tail);
    assert sql == Before(sql) + closing;
    RunConcat(Fresh([]), Before(sql), closing);
  }

  /** In an accepted file, the text before the closing COMMIT leaves code with nothing pending, or a line comment. */
  lemma AcceptedBefore(sql: string)
    requires Unwrap(sql).Ok?
    ensures
      var s := Run(Fresh([]), Before(sql));
      && s.Reading?
      && (s.mode.LineComment? || (InCode(s.mode) && Pending(s) == [] && s.tokens == []
          && exists commit :: Lex(sql) == Ok(s.statements + [commit])))
  {
    AcceptedStatements(sql);
    hide Unwrap, Run, OpeningEnd, ClosingStart, Body, Controls;
    var s := Run(Fresh([]), Before(sql));
    var word, gap, tail := ClosingSplit(sql);
    var closing := word + ((gap + ";") + tail);
    if s.Rejected? {
      RunRejected(s, closing);
    } else if Enclosed(s.mode) {
      ClosingChars(word, gap, tail);
      WellFormedRun(Fresh([]), Before(sql));
      EnclosedRefused(s, closing);
    } else if InCode(s.mode) {
      WellFormedRun(Fresh([]), Before(sql));
      ClosingInCode(s, word, gap, tail);
      hide Lex, Outcome;
      var statements := Lex(sql).value;
      OneToken(s.tokens, Casefold(Lead(s.mode) + word), statements[|statements| - 1].tokens);
      assert Pending(s) == [];
    }
  }

  lemma OneToken(tokens: seq<Token>, last: Token, all: seq<Token>)
    requires tokens + [last] == all == COMMIT
    ensures tokens == [] && last == "commit" && |last| == 6
  {
    assert |tokens| == 0;
    assert all[0] == last;
  }

  // ---------------------------------------------------------------------------------------------
  // The composed request
  // ---------------------------------------------------------------------------------------------

  /** The newline after the body ends a pending fragment or a line comment. */
  lemma Newline(s: State, tokens: seq<Token>, statements: seq<Statement>)
    requires Commented(s, tokens, statements) || (tokens == [] && Quiet(s, statements))
    ensures Step(s, '\n') == Reading(Normal, s.raw + ['\n'], tokens, statements)
  {
    if InCode(s.mode) { StepInCode(s, '\n'); }
  }

  /** The text of the receipt's statement, after the text that the body leaves open. */
  function ReceiptRaw(open: string, row: Row): string {
    Strip((open + ['\n']) + RenderAll(InsertPieces(row)) + ";")
  }

  lemma RunInsert(s: State, row: Row, tokens: seq<Token>, statements: seq<Statement>) returns (insert: Statement)
    requires IsRow(row)
    requires Commented(s, tokens, statements) || (tokens == [] && Quiet(s, statements))
    ensures insert.tokens == tokens + INSERT_TOKENS && insert.raw == ReceiptRaw(s.raw, row)
    ensures Run(s, "\n" + (RenderAll(InsertPieces(row)) + ";")) == Fresh(statements + [insert])
  {
    Newline(s, tokens, statements);
    RunChar(s, '\n');
    hide Run, RenderAll, TokensOf, InsertPieces, Readable, Quiet, Commented;
    InsertReadable(row);
    InsertTokens(row);
    var raw := s.raw + ['\n'];
    RunStatement(raw, tokens, statements, InsertPieces(row));
    insert := Statement(Strip(raw + RenderAll(InsertPieces(row)) + ";"), tokens + INSERT_TOKENS);
    RunThen(s, "\n", Reading(Normal, raw, tokens, statements), RenderAll(InsertPieces(row)) + ";", Fresh(statements + [insert]));
  }

  lemma RunCommit(statements: seq<Statement>) returns (commit: Statement)
    ensures commit.tokens == COMMIT
    ensures Outcome(Fresh(statements), "\n\n" + "commit;") == Ok(statements + [commit])
  {
    hide Run;
    var raw := "\n\n";
    RunSpaces("", [], statements, raw);
    assert "" + raw == raw;
    LetterWord("commit", "commit");
    RunLastWord(raw, [], statements, "commit", "");
    assert "commit" + ("" + ";") == "commit;" && [] + [Casefold("commit")] == COMMIT;
    commit := Statement(Strip(raw + "commit;"), COMMIT);
    RunThen(Fresh(statements), raw, Reading(Normal, raw, [], statements), "commit;", Fresh(statements + [commit]));
  }

  lemma RunEpilogue(s: State, row: Row, tokens: seq<Token>, statements: seq<Statement>) returns (insert: Statement, commit: Statement)
    requires IsRow(row)
    requires Commented(s, tokens, statements) || (tokens == [] && Quiet(s, statements))
    ensures insert.tokens == tokens + INSERT_TOKENS && commit.tokens == COMMIT && insert.raw == ReceiptRaw(s.raw, row)
    ensures Outcome(s, Epilogue(row)) == Ok(statements + [insert, commit])
  {
    insert := RunInsert(s, row, tokens, statements);
    hide Run, RenderAll, InsertPieces, Quiet, Commented, ReceiptRaw;
    commit := RunCommit(statements + [insert]);
    var receipt := "\n" + (RenderAll(InsertPieces(row)) + ";");
    var t := Fresh(statements + [insert]);
    RunThen(s, receipt, t, "\n\n" + "commit;", Run(t, "\n\n" + "commit;"));
    assert (statements + [insert]) + [commit] == statements + [insert, commit];
  }

  /** What the body leaves open: the text after its last top-level semicolon. */
  function OpenText(body: string): string {
    var s := Run(Fresh([]), body);
    if s.Reading? then s.raw else ""
  }

  /** What the request lexes to, given where the body alone leaves the splitter. */
  lemma RequestLexes(rows: seq<Row>, body: string, row: Row, tokens: seq<Token>, statements: seq<Statement>)
    returns (head: seq<Statement>, insert: Statement, commit: Statement, blank: string)
    requires IsRow(row) && forall i :: 0 <= i < |rows| ==> IsRow(rows[i])
    requires
      var s := Run(Fresh([]), body);
      Commented(s, tokens, statements) || (tokens == [] && Quiet(s, statements))
    ensures |head| == 3
    ensures head[0].tokens == BEGIN
    ensures head[1] == Statement(LockText(), LOCK_TOKENS) && head[2] == Statement(Guard(rows), GUARD_TOKENS)
    ensures insert.tokens == tokens + INSERT_TOKENS && commit.tokens == COMMIT
    ensures IsBlank(blank) && insert.raw == ReceiptRaw(blank + OpenText(body), row)
    ensures Lex(Request(rows, body, row)) == Ok((head + statements) + [insert, commit])
  {
    var s := Run(Fresh([]), body);
    head := RunPreamble(rows);
    hide Run, Preamble, Epilogue, Shifted, ReceiptRaw;
    var start := Reading(Normal, "\n", [], head);
    var left := AfterPreamble(head, body);
    var t := Run(start, body);
    ShiftedThere(t, s, head, left, tokens, statements);
    ShiftedRaw(t, s, head, left, tokens, statements);
    blank := left;
    hide Quiet, Commented;
    insert, commit := RunEpilogue(t, row, tokens, head + statements);
    RunThen(Fresh([]), Preamble(rows), start, body, t);
    RunThen(Fresh([]), Preamble(rows) + body, t, Epilogue(row), Run(t, Epilogue(row)));
  }

  lemma AfterPreamble(head: seq<Statement>, body: string) returns (left: string)
    ensures Shifted(Run(Reading(Normal, "\n", [], head), body), Run(Fresh([]), body), head, left)
  {
    assert head + [] == head && "\n" + "" == "\n";
    left := ShiftedRun(Reading(Normal, "\n", [], head), Fresh([]), head, "\n", body);
  }

  lemma ShiftedThere(s: State, t: State, earlier: seq<Statement>, blank: string, tokens: seq<Token>, statements: seq<Statement>)
    requires Shifted(s, t, earlier, blank)
    ensures Quiet(t, statements) ==> Quiet(s, earlier + statements)
    ensures Commented(t, tokens, statements) ==> Commented(s, tokens, earlier + statements)
  {}

  lemma ShiftedRaw(s: State, t: State, earlier: seq<Statement>, blank: string, tokens: seq<Token>, statements: seq<Statement>)
    requires Shifted(s, t, earlier, blank) && (Commented(t, tokens, statements) || Quiet(t, statements))
    ensures IsBlank(blank) && s.Reading? && t.Reading? && s.raw == blank + t.raw
  {}

  /** What the body of a committed file leaves pending is nothing. */
  lemma CommittedBetween(sql: string) returns (statements: seq<Statement>)
    requires Unwrap(sql).Ok? && !CommitCommentedOut(sql)
    ensures |Lex(sql).value| >= 3 && statements == Middle(Lex(sql).value)
    ensures Quiet(Run(Fresh([]), Unwrap(sql).value), statements)
  {
    AcceptedBefore(sql);
    AcceptedStatements(sql);
    var begin := BetweenAlone(sql);
    hide Run, OpeningEnd, ClosingStart, Lex, Unwrap;
    var s, t := Run(Fresh([]), Before(sql)), Run(Fresh([]), Between(sql));
    var last :| Lex(sql) == Ok(s.statements + [last]);
    statements := t.statements;
    assert ([begin] + t.statements + [last])[1..|t.statements| + 1] == t.statements;
    StrippedBody(Between(sql), [], t.statements);
  }

  /** The file's COMMIT is not commented out: the body's own statements, unchanged and in order, stand between
      lock and guard on one side and the receipt and COMMIT on the other, even when the body ends in a comment or
      in a fragment without tokens. */
  lemma RequestKeepsStatements(sql: string, rows: seq<Row>, row: Row)
    returns (head: seq<Statement>, insert: Statement, commit: Statement)
    requires Unwrap(sql).Ok? && !CommitCommentedOut(sql)
    requires IsRow(row) && forall i :: 0 <= i < |rows| ==> IsRow(rows[i])
    ensures |head| == 3
    ensures head[0].tokens == BEGIN
    ensures head[1] == Statement(LockText(), LOCK_TOKENS) && head[2] == Statement(Guard(rows), GUARD_TOKENS)
    ensures insert.tokens == INSERT_TOKENS && commit.tokens == COMMIT
    ensures ReadInsert(Items(insert.raw)) == if LeavesFragment(Unwrap(sql).value) then None else Some(row)
    ensures Lex(Request(rows, Unwrap(sql).value, row)) == Ok((head + Middle(Lex(sql).value)) + [insert, commit])
  {
    AcceptedStatements(sql);
    assert [] + INSERT_TOKENS == INSERT_TOKENS;
    hide *;
    var statements := CommittedBetween(sql);
    var blank;
    head, insert, commit, blank := RequestLexes(rows, Unwrap(sql).value, row, [], statements);
    ReceiptRead(Unwrap(sql).value, [], statements, blank, row);
  }

  lemma FixedNotControl()
    ensures !IsTransactionControl(LOCK_TOKENS) && !IsTransactionControl(GUARD_TOKENS) && !IsTransactionControl(INSERT_TOKENS)
  {}

  /** Whether the composed list has control inside depends on the body's statements and the receipt alone. */
  lemma ComposedControl(head: seq<Statement>, statements: seq<Statement>, insert: Statement, commit: Statement)
    requires |head| == 3 && head[1].tokens == LOCK_TOKENS && head[2].tokens == GUARD_TOKENS
    ensures Controls(Middle((head + statements) + [insert, commit]))
       <==> Controls(statements) || IsTransactionControl(insert.tokens)
  {
    FixedNotControl();
    hide IsTransactionControl;
    var all := Middle((head + statements) + [insert, commit]);
    var n := |statements|;
    assert |all| == n + 3 && all[0] == head[1] && all[1] == head[2] && all[n + 2] == insert;
    assert forall i :: 0 <= i < n ==> all[i + 2] == statements[i];
    if Controls(statements) {
      var i :| 0 <= i < n && IsTransactionControl(statements[i].tokens);
      assert IsTransactionControl(all[i + 2].tokens);
    }
    if Controls(all) {
      var i :| 0 <= i < |all| && IsTransactionControl(all[i].tokens);
      if 2 <= i < n + 2 { assert IsTransactionControl(statements[i - 2].tokens); }
    }
  }

  lemma CommittedIsAtomic(sql: string, rows: seq<Row>, row: Row)
    requires Unwrap(sql).Ok? && !CommitCommentedOut(sql)
    requires IsRow(row) && forall i :: 0 <= i < |rows| ==> IsRow(rows[i])
    ensures IsAtomic(Request(rows, Unwrap(sql).value, row))
  {
    hide Lex, Unwrap, Request, IsTransactionControl, Controls, Middle, CommitCommentedOut, AreAtomic;
    hide LeavesFragment, ReadInsert, Items, IsRow, Guard, LockText, OpeningEnd, ClosingStart;
    var head, insert, commit := RequestKeepsStatements(sql, rows, row);
    AcceptedStatements(sql);
    FixedNotControl();
    ComposedControl(head, Middle(Lex(sql).value), insert, commit);
    var all := (head + Middle(Lex(sql).value)) + [insert, commit];
    assert all[0] == head[0];
    NoControlIsAtomic(all);
  }

  lemma NoControlIsAtomic(all: seq<Statement>)
    requires |all| >= 2 && all[0].tokens == BEGIN && all[|all| - 1].tokens == COMMIT && !Controls(Middle(all))
    ensures AreAtomic(all)
  {
    hide IsTransactionControl, EffectOf;
    CommitEnds();
    forall k | 0 < k < |all| ensures StatusAfter(all[..k]) == Inside(true) {
      forall i | 0 < i < k ensures !IsTransactionControl(all[i].tokens) { assert Middle(all)[i - 1] == all[i]; }
      NoControlStaysInside(all, k);
    }
  }

  // ---------------------------------------------------------------------------------------------
  // How far the server gets
  // ---------------------------------------------------------------------------------------------

  /** The second statement takes the deployment lock. */
  predicate TakesLock(sql: string) {
    Lex(sql).Ok? && |Lex(sql).value| > 1 && Items(Lex(sql).value[1].raw) == LOCK_ITEMS
  }

  /** What the third statement, the guard, compares with the table. */
  function GuardIn(sql: string): Option<Comparison> {
    if Lex(sql).Ok? && |Lex(sql).value| > 2 then ReadGuard(Items(Lex(sql).value[2].raw)) else None
  }

  /** The row that the receipt writes, which is the statement before the last one. */
  function RowIn(sql: string): Option<Row> {
    if Lex(sql).Ok? && |Lex(sql).value| > 1 then ReadInsert(Items(Lex(sql).value[|Lex(sql).value| - 2].raw)) else None
  }

  /** A COMMIT at the end and no transaction control before. */
  ghost predicate CommitsLast(statements: seq<Statement>) {
    && |statements| > 0 && statements[|statements| - 1].tokens == COMMIT
    && forall i :: 0 <= i < |statements| - 1 ==> !IsTransactionControl(statements[i].tokens)
  }

  /** In an accepted file, the text between the wrapper's ends leaves nothing pending, or a comment after a COMMIT. */
  lemma AcceptedBetween(sql: string) returns (begin: Statement, tokens: seq<Token>, statements: seq<Statement>)
    requires Unwrap(sql).Ok?
    ensures
      var s := Run(Fresh([]), Unwrap(sql).value);
      Commented(s, tokens, statements) || (tokens == [] && Quiet(s, statements))
    ensures !CommitCommentedOut(sql) ==> tokens == [] && !Controls(statements)
    ensures CommitCommentedOut(sql) ==> (LeavesCommit(sql) <==> tokens == [])
    ensures LeavesCommit(sql) ==> CommitsLast(statements)
    ensures tokens != [] ==> tokens == COMMIT && !Controls(statements)
  {
    begin := BetweenAlone(sql);
    AcceptedBefore(sql);
    AcceptedStatements(sql);
    hide Run, OpeningEnd, ClosingStart, Lex, Unwrap;
    var s, t := Run(Fresh([]), Before(sql)), Run(Fresh([]), Between(sql));
    tokens, statements := t.tokens, t.statements;
    StrippedBody(Between(sql), tokens, statements);
    if CommitCommentedOut(sql) {
      CommentedFile(sql);
      hide Controls, IsTransactionControl, Quiet, Commented;
      if tokens == [] { LeftAt(begin, statements, Lex(sql).value); } else { SwallowedBy(begin, statements, Lex(sql).value); }
    } else {
      var last :| Lex(sql) == Ok(s.statements + [last]);
      assert ([begin] + statements + [last])[1..|statements| + 1] == statements;
    }
  }

  lemma CommentedFile(sql: string)
    requires Unwrap(sql).Ok? && CommitCommentedOut(sql)
    ensures
      var s := Run(Fresh([]), Before(sql));
      && s.Reading? && s.mode.LineComment?
      && (s.tokens == [] ==> Lex(sql) == Ok(s.statements))
      && (s.tokens != [] ==> s.tokens == COMMIT && exists last :: Lex(sql) == Ok(s.statements + [last]))
  {
    AcceptedStatements(sql);
    hide Unwrap, Run, OpeningEnd, ClosingStart, Body, Controls;
    var s := Run(Fresh([]), Before(sql));
    var word, gap, tail := ClosingSplit(sql);
    ClosingInComment(s, word, gap, tail);
  }

  lemma LeftAt(begin: Statement, statements: seq<Statement>, all: seq<Statement>)
    requires all == [begin] + statements && |all| >= 3 && all[|all| - 1].tokens == COMMIT && !Controls(Middle(all))
    ensures CommitsLast(statements)
  {
    hide IsTransactionControl;
    assert statements[|statements| - 1] == all[|all| - 1];
    forall i | 0 <= i < |statements| - 1 ensures !IsTransactionControl(statements[i].tokens) {
      assert Middle(all)[i] == statements[i];
    }
  }

  lemma SwallowedBy(begin: Statement, statements: seq<Statement>, all: seq<Statement>)
    requires |all| >= 3 && !Controls(Middle(all)) && exists last :: all == ([begin] + statements) + [last]
    ensures !Controls(statements)
  {
    assert Middle(all) == statements;
  }

  /** Whatever an accepted file's COMMIT does, its request first takes the lock and then compares the table with the rows
      that are expected, and with their number. */
  lemma RequestStarts(sql: string, rows: seq<Row>, row: Row)
    requires Unwrap(sql).Ok?
    requires IsRow(row) && forall i :: 0 <= i < |rows| ==> IsRow(rows[i])
    ensures TakesLock(Request(rows, Unwrap(sql).value, row))
    ensures GuardIn(Request(rows, Unwrap(sql).value, row)) == Some(Comparison(|rows|, rows))
  {
    hide Run, Lex, Unwrap, Request, LockText, Guard, Items, ReadGuard, LOCK_ITEMS, OpenText, ReceiptRaw;
    LockSays();
    GuardSays(rows);
    var begin, tokens, statements := AcceptedBetween(sql);
    var head, insert, commit, blank := RequestLexes(rows, Unwrap(sql).value, row, tokens, statements);
  }

  /** Besides comments, something stands after the body's last top-level semicolon. It says nothing to the splitter, but
      stands before the receipt in one statement with it. */
  predicate LeavesFragment(body: string) {
    Items(OpenText(body)) != []
  }

  /** For every accepted file that does not swallow its receipt: read back from the text, the receipt writes the version
      and the checksum of the migration, each in its column, if and only if the file leaves no fragment. */
  lemma ReceiptExactlyWhenNoFragment(sql: string, rows: seq<Row>, row: Row)
    requires Unwrap(sql).Ok? && (CommitCommentedOut(sql) ==> LeavesCommit(sql))
    requires IsRow(row) && forall i :: 0 <= i < |rows| ==> IsRow(rows[i])
    ensures RowIn(Request(rows, Unwrap(sql).value, row)) == if LeavesFragment(Unwrap(sql).value) then None else Some(row)
  {
    hide Run, Lex, Unwrap, Request, LockText, Guard, Items, ReadInsert, OpenText, ReceiptRaw, LeavesCommit, CommitCommentedOut;
    var begin, tokens, statements := AcceptedBetween(sql);
    var head, insert, commit, blank := RequestLexes(rows, Unwrap(sql).value, row, tokens, statements);
    var all := (head + statements) + [insert, commit];
    assert all[|all| - 2] == insert;
    ReceiptRead(Unwrap(sql).value, tokens, statements, blank, row);
  }

  lemma ReceiptRead(body: string, tokens: seq<Token>, statements: seq<Statement>, blank: string, row: Row)
    requires IsRow(row) && IsBlank(blank) && tokens == []
    requires var s := Run(Fresh([]), body); Commented(s, tokens, statements) || Quiet(s, statements)
    ensures ReadInsert(Items(ReceiptRaw(blank + OpenText(body), row))) == if LeavesFragment(body) then None else Some(row)
  {
    var s := Run(Fresh([]), body);
    hide Run, Items, ReadInsert, RenderAll, InsertPieces, IsRow;
    AloneAfter(body);
    assert Pending(s) == [];
    var receipt := RenderAll(InsertPieces(row)) + ";";
    QuietItems(s, receipt);
    ReceiptSays(row);
    if LeavesFragment(body) { NoWordNoRow(Items(s.raw + ("\n" + receipt))); }
    ItemsBlanks(blank, s.raw + ("\n" + receipt));
    var text := ((blank + s.raw) + ['\n']) + RenderAll(InsertPieces(row)) + ";";
    assert text == blank + (s.raw + ("\n" + receipt)) by { FiveParts(blank, s.raw, RenderAll(InsertPieces(row))); }
    ItemsStripped(text);
  }

  lemma FiveParts(blank: string, open: string, receipt: string)
    ensures ((blank + open) + ['\n']) + receipt + ";" == blank + (open + ("\n" + (receipt + ";")))
  {}

  lemma AloneAfter(body: string)
    ensures StandsAlone(Run(Fresh([]), body))
  {
    assert Run(Fresh([]), "") == Fresh([]);
    StandsAloneRun(Fresh([]), body);
  }

  lemma NoWordNoRow(items: seq<Item>)
    requires items != [] && !items[0].Name?
    ensures ReadInsert(items).None?
  {
    assert INSERT_ITEMS[0].Name?;
  }

  /** Stripping a text that ends in ink leaves what it says. */
  lemma ItemsStripped(text: string)
    requires text != "" && text[|text| - 1] == ';'
    ensures Items(Strip(text)) == Items(text)
  {
    hide Items;
    var before, after := StripParts(text);
    NoBlankEnd(before + Strip(text), after);
    ItemsBlanks(before, Strip(text));
  }

  lemma NoBlankEnd(front: string, after: string)
    requires IsBlank(after) && front + after != "" && !IsSpace((front + after)[|front + after| - 1])
    ensures after == "" && front + after == front
  {}

  /** For every accepted file: the server commits the body before the receipt exactly when the file leaves its own
      COMMIT in the body as a statement. */
  lemma EarlyExactlyWhenLeft(sql: string, rows: seq<Row>, row: Row)
    requires Unwrap(sql).Ok?
    requires IsRow(row) && forall i :: 0 <= i < |rows| ==> IsRow(rows[i])
    ensures CommitsEarly(Request(rows, Unwrap(sql).value, row)) <==> LeavesCommit(sql)
  {
    hide Run, Lex, Unwrap, Request, LockText, Guard, LeavesCommit, CommitCommentedOut, Quiet, Commented;
    var begin, tokens, statements := AcceptedBetween(sql);
    var head, insert, commit, blank := RequestLexes(rows, Unwrap(sql).value, row, tokens, statements);
    LeavesIsCommented(sql);
    hide EndsAt, Controls, IsTransactionControl, CommitsLast, EffectOf;
    if LeavesCommit(sql) {
      LeftInRequest(head, statements, insert, commit);
    } else {
      NotLeftInRequest(head, statements, tokens, insert, commit);
    }
  }

  /** The file's COMMIT is commented out: either a COMMIT of the body ends the transaction before the receipt, or the
      receipt is swallowed by a COMMIT that lost its semicolon, and fails. */
  lemma CommentedIsNotAtomic(sql: string, rows: seq<Row>, row: Row)
    requires Unwrap(sql).Ok? && CommitCommentedOut(sql)
    requires IsRow(row) && forall i :: 0 <= i < |rows| ==> IsRow(rows[i])
    ensures !IsAtomic(Request(rows, Unwrap(sql).value, row))
  {
    hide Run, Lex, Unwrap, Request, LockText, Guard, LeavesCommit, CommitCommentedOut, Quiet, Commented;
    var begin, tokens, statements := AcceptedBetween(sql);
    var head, insert, commit, blank := RequestLexes(rows, Unwrap(sql).value, row, tokens, statements);
    hide EndsAt, Controls, IsTransactionControl, CommitsLast, EffectOf;
    var all := (head + statements) + [insert, commit];
    if tokens == [] {
      LeftInRequest(head, statements, insert, commit);
      OverAfter(all, |statements| + 2);
    } else {
      StatusStep(all, |all| - 2);
      SwallowedFails();
      assert all[|all| - 2] == insert;
    }
  }

  lemma SwallowedFails()
    ensures EffectOf(COMMIT + INSERT_TOKENS) == Fails
  {
    assert (COMMIT + INSERT_TOKENS)[1..] == INSERT_TOKENS;
  }

  /** For every accepted migration: the composed request is one atomic transaction exactly when the COMMIT that
      ends the file is not commented out. */
  lemma AtomicExactlyWhenCommitted(sql: string, rows: seq<Row>, row: Row)
    requires Unwrap(sql).Ok?
    requires IsRow(row) && forall i :: 0 <= i < |rows| ==> IsRow(rows[i])
    ensures IsAtomic(Request(rows, Unwrap(sql).value, row)) <==> !CommitCommentedOut(sql)
  {
    hide Run, IsAtomic, CommitCommentedOut, Request;
    if CommitCommentedOut(sql) {
      CommentedIsNotAtomic(sql, rows, row);
    } else {
      CommittedIsAtomic(sql, rows, row);
    }
  }

  lemma LeavesIsCommented(sql: string)
    ensures LeavesCommit(sql) ==> CommitCommentedOut(sql)
  {
    hide CommitCommentedOut;
  }

  lemma LeftInRequest(head: seq<Statement>, statements: seq<Statement>, insert: Statement, commit: Statement)
    requires |head| == 3 && head[0].tokens == BEGIN && head[1].tokens == LOCK_TOKENS && head[2].tokens == GUARD_TOKENS
    requires CommitsLast(statements)
    ensures EndsAt((head + statements) + [insert, commit], |statements| + 2)
  {
    FixedNotControl();
    CommitEnds();
    hide IsTransactionControl, EffectOf;
    var all := (head + statements) + [insert, commit];
    assert forall k :: 3 <= k < |statements| + 3 ==> all[k] == statements[k - 3];
    assert all[0] == head[0] && all[1] == head[1] && all[2] == head[2];
    NoControlStaysInside(all, |statements| + 2);
  }

  lemma NotLeftInRequest(head: seq<Statement>, statements: seq<Statement>, tokens: seq<Token>, insert: Statement, commit: Statement)
    requires |head| == 3 && head[1].tokens == LOCK_TOKENS && head[2].tokens == GUARD_TOKENS
    requires !Controls(statements) && insert.tokens == tokens + INSERT_TOKENS && (tokens == [] || tokens == COMMIT)
    ensures
      var all := (head + statements) + [insert, commit];
      forall j :: 0 < j < |all| - 1 ==> !EndsAt(all, j)
  {
    var all := (head + statements) + [insert, commit];
    FixedNotControl();
    SwallowedFails();
    assert [] + INSERT_TOKENS == INSERT_TOKENS;
    hide IsTransactionControl, EffectOf;
    forall j | 0 < j < |all| - 1 ensures !EffectOf(all[j].tokens).Ends? {
      ControlExactlyWhenEffect(all[j].tokens);
      if 3 <= j < |statements| + 3 { assert all[j] == statements[j - 3]; }
    }
  }

  const COMMENTED: string := "begin;a;commit;--commit;"

  lemma BeginTokens()
    ensures BEGIN == ["begin"] && COMMIT == ["commit"]
  {}

  lemma CommentedStart() returns (statements: seq<Statement>)
    ensures |statements| == 3
    ensures statements[0].tokens == BEGIN && statements[1].tokens == ["a"] && statements[2].tokens == COMMIT
    ensures Run(Fresh([]), "begin;" + "a;" + "commit;") == Fresh(statements)
  {
    CommentedWords();
    hide *;
    var begin := RunOneWord([], "begin");
    var a := RunOneWord([begin], "a");
    var commit := RunOneWord([begin] + [a], "commit");
    assert "begin" + ";" == "begin;" && "a" + ";" == "a;" && "commit" + ";" == "commit;";
    assert [] + [begin] == [begin];
    statements := ([begin] + [a]) + [commit];
    BeginTokens();
    RunThen(Fresh([]), "begin;", Fresh([begin]), "a;", Fresh([begin] + [a]));
    RunThen(Fresh([]), "begin;" + "a;", Fresh([begin] + [a]), "commit;", Fresh(statements));
  }

  const PLAIN: string := "begin;a;commit;"

  lemma PlainOpens()
    ensures OpeningEnd(PLAIN) == 6
  {
    assert |PLAIN| == 15 && PLAIN[5] == ';' && PLAIN[0] == 'b';
    assert SkipSpace(PLAIN, 0) == 0 && SkipSpace(PLAIN, 5) == 5;
    hide Casefold, SkipSpace;
    assert PLAIN[0..5] == "begin";
    CommentedWords();
  }

  lemma PlainCloses()
    ensures ClosingStart(PLAIN) == 8
  {
    assert |PLAIN| == 15 && PLAIN[14] == ';' && PLAIN[13] == 't';
    hide Casefold;
    assert PLAIN[8..14] == "commit";
    CommentedWords();
  }

  lemma PlainBefore()
    ensures Run(Fresh([]), PLAIN[..8]).Reading? && Run(Fresh([]), PLAIN[..8]).mode == Normal
  {
    CommentedWords();
    assert PLAIN[..8] == "begin;" + "a;";
    hide *;
    var begin := RunOneWord([], "begin");
    var a := RunOneWord([begin], "a");
    assert "begin" + ";" == "begin;" && "a" + ";" == "a;" && [] + [begin] == [begin];
    RunThen(Fresh([]), "begin;", Fresh([begin]), "a;", Fresh([begin] + [a]));
    FreshIsNormal([begin] + [a]);
  }

  lemma FreshIsNormal(statements: seq<Statement>)
    ensures Fresh(statements).Reading? && Fresh(statements).mode == Normal
  {}

  lemma PlainLeavesNothing()
    ensures !LeavesFragment("a;")
  {
    CommentedWords();
    var a := RunOneWord([], "a");
    assert "a" + ";" == "a;";
    assert OpenText("a;") == "";
  }

  /** The ordinary case is there: a file whose COMMIT is not commented out is accepted with its body. */
  lemma PlainCommitIsAccepted()
    ensures Unwrap(PLAIN) == Ok("a;") && !CommitCommentedOut(PLAIN) && !LeavesFragment("a;")
  {
    PlainLeavesNothing();
    hide Run, Strip, OpeningEnd, ClosingStart, Casefold, Step;
    var statements := CommentedStart();
    PlainOpens();
    PlainCloses();
    PlainBefore();
    StripUnique("", "a;", "");
    assert "" + "a;" + "" == PLAIN[6..8];
    assert PLAIN == "begin;" + "a;" + "commit;";
    assert Lex(PLAIN) == Ok(statements);
    assert Middle(statements) == [statements[1]];
    assert Body(PLAIN) == "a;";
  }

  lemma RunDashes(statements: seq<Statement>)
    ensures Run(Fresh(statements), "-" + "-") == Reading(LineComment, "--", [], statements)
  {
    hide Run;
    var s := Reading(Dash, "" + ['-'], [], statements);
    RunChar(Fresh(statements), '-');
    RunChar(s, '-');
    assert ("" + ['-']) + ['-'] == "--";
    RunThen(Fresh(statements), "-", s, "-", Step(s, '-'));
  }

  lemma CommentedLexes() returns (statements: seq<Statement>)
    ensures |statements| == 3
    ensures statements[0].tokens == BEGIN && statements[1].tokens == ["a"] && statements[2].tokens == COMMIT
    ensures Run(Fresh([]), "begin;a;commit;--") == Reading(LineComment, "--", [], statements)
  {
    hide Run;
    statements := CommentedStart();
    RunDashes(statements);
    var start := "begin;" + "a;" + "commit;";
    RunThen(Fresh([]), start, Fresh(statements), "-" + "-", Reading(LineComment, "--", [], statements));
    assert start + ("-" + "-") == "begin;a;commit;--";
  }

  lemma CommentedOpens()
    ensures OpeningEnd(COMMENTED) == 6
  {
    assert |COMMENTED| == 24 && COMMENTED[5] == ';' && COMMENTED[0] == 'b';
    assert SkipSpace(COMMENTED, 0) == 0 && SkipSpace(COMMENTED, 5) == 5;
    hide Casefold, SkipSpace;
    assert COMMENTED[0..5] == "begin";
    CommentedWords();
  }

  lemma CommentedCloses()
    ensures ClosingStart(COMMENTED) == 17
  {
    assert |COMMENTED| == 24 && COMMENTED[23] == ';' && COMMENTED[22] == 't';
    hide Casefold;
    assert COMMENTED[17..23] == "commit";
    CommentedWords();
  }

  lemma CommentedWords()
    ensures Casefold("begin") == "begin" && IsWord("begin")
    ensures Casefold("a") == "a" && IsWord("a")
    ensures Casefold("commit") == "commit" && IsWord("commit")
  {}

  lemma CommentedBody()
    ensures Strip(COMMENTED[6..17]) == "a;commit;--"
  {
    StripUnique("", "a;commit;--", "");
    assert "" + "a;commit;--" + "" == COMMENTED[6..17];
  }

  lemma DashesSayNothing()
    ensures Items("--") == []
    ensures "a" + ";" == "a;" && "commit" + ";" == "commit;" && "a;" + "commit;" + ("-" + "-") == "a;commit;--"
  {}

  lemma CommentLeavesNothing()
    ensures !LeavesFragment("a;commit;--")
  {
    hide Run, Casefold, Items, IsWord, Strip, Split, Step;
    CommentedWords();
    DashesSayNothing();
    var a := RunOneWord([], "a");
    var commit := RunOneWord([a], "commit");
    assert [] + [a] == [a];
    RunThen(Fresh([]), "a;", Fresh([a]), "commit;", Fresh([a] + [commit]));
    RunDashes([a] + [commit]);
    RunThen(Fresh([]), "a;" + "commit;", Fresh([a] + [commit]), "-" + "-", Reading(LineComment, "--", [], [a] + [commit]));
    assert OpenText("a;commit;--") == "--";
  }

  /** A file whose comment ends with a COMMIT is accepted, and its own COMMIT is then left in the body as a statement. */
  lemma CommentedCommitIsAccepted()
    ensures Unwrap(COMMENTED) == Ok("a;commit;--")
    ensures CommitCommentedOut(COMMENTED) && LeavesCommit(COMMENTED) && !LeavesFragment("a;commit;--")
  {
    CommentLeavesNothing();
    hide Run, Strip, OpeningEnd, ClosingStart, Casefold, Step;
    var statements := CommentedLexes();
    CommentedOpens();
    CommentedCloses();
    CommentedBody();
    var s := Reading(LineComment, "--", [], statements);
    assert COMMENTED[..17] == "begin;a;commit;--";
    ClosingInComment(s, "commit", "", "");
    var closing := "commit" + (("" + ";") + "");
    assert COMMENTED == "begin;a;commit;--" + closing;
    RunThen(Fresh([]), "begin;a;commit;--", s, closing, Run(s, closing));
    assert Lex(COMMENTED) == Ok(statements);
    assert Middle(statements) == [statements[1]];
    assert Body(COMMENTED) == "a;commit;--";
  }

  const FRAGMENT: string := "begin;a;1 commit;"

  lemma FragmentOpens()
    ensures OpeningEnd(FRAGMENT) == 6
  {
    assert |FRAGMENT| == 17 && FRAGMENT[5] == ';' && FRAGMENT[0] == 'b';
    assert SkipSpace(FRAGMENT, 0) == 0 && SkipSpace(FRAGMENT, 5) == 5;
    hide Casefold, SkipSpace;
    assert FRAGMENT[0..5] == "begin";
    CommentedWords();
  }

  lemma FragmentCloses()
    ensures ClosingStart(FRAGMENT) == 10
  {
    assert |FRAGMENT| == 17 && FRAGMENT[16] == ';' && FRAGMENT[15] == 't';
    hide Casefold;
    assert FRAGMENT[10..16] == "commit";
    CommentedWords();
  }

  lemma FragmentBody()
    ensures Strip(FRAGMENT[6..10]) == "a;1"
  {
    StripUnique("", "a;1", " ");
    assert "" + "a;1" + " " == FRAGMENT[6..10];
  }

  lemma RunOne1(statements: seq<Statement>, gap: string)
    requires AllInert(gap)
    ensures Run(Fresh(statements), "1" + gap) == Reading(Normal, "1" + gap, [], statements)
  {
    RunInert("", [], statements, "1" + gap);
    assert "" + ("1" + gap) == "1" + gap;
  }

  lemma FragmentLeft()
    ensures LeavesFragment("a;1")
  {
    CommentedWords();
    assert "a" + ";" == "a;" && "a;" + ("1" + "") == "a;1" && "1" + "" == "1";
    assert Items("1") != [];
    hide Run, Casefold, Items;
    var a := RunOneWord([], "a");
    assert [] + [a] == [a];
    RunOne1([a], "");
    RunThen(Fresh([]), "a;", Fresh([a]), "1" + "", Reading(Normal, "1" + "", [], [a]));
    assert OpenText("a;1") == "1";
  }

  lemma FragmentParts()
    ensures FRAGMENT[..10] == "begin;" + "a;" + ("1" + " ") && "1" + " " == "1 " && AllInert(" ")
  {}

  lemma FragmentLexes() returns (begin: Statement, a: Statement)
    ensures begin.tokens == BEGIN && a.tokens == ["a"]
    ensures Run(Fresh([]), FRAGMENT[..10]) == Reading(Normal, "1 ", [], [begin, a])
  {
    hide *;
    CommentedWords();
    BeginTokens();
    FragmentParts();
    begin := RunOneWord([], "begin");
    a := RunOneWord([begin], "a");
    assert "begin" + ";" == "begin;" && "a" + ";" == "a;" && [] + [begin] == [begin] && [begin] + [a] == [begin, a];
    RunThen(Fresh([]), "begin;", Fresh([begin]), "a;", Fresh([begin, a]));
    RunOne1([begin, a], " ");
    RunThen(Fresh([]), "begin;" + "a;", Fresh([begin, a]), "1" + " ", Reading(Normal, "1 ", [], [begin, a]));
  }

  /** A file that leaves a fragment is accepted as well. */
  lemma FragmentIsAccepted()
    ensures Unwrap(FRAGMENT) == Ok("a;1") && !CommitCommentedOut(FRAGMENT) && LeavesFragment("a;1")
  {
    FragmentLeft();
    hide Run, Strip, OpeningEnd, ClosingStart, Casefold, Step, LeavesFragment;
    var begin, a := FragmentLexes();
    FragmentOpens();
    FragmentCloses();
    FragmentBody();
    CommentedWords();
    var s := Reading(Normal, "1 ", [], [begin, a]);
    ClosingInCode(s, "commit", "", "");
    var closing := "commit" + (("" + ";") + "");
    assert FRAGMENT == FRAGMENT[..10] + closing;
    RunThen(Fresh([]), FRAGMENT[..10], s, closing, Run(s, closing));
    assert [] + [Casefold("" + "commit")] == COMMIT by { BeginTokens(); assert "" + "commit" == "commit"; }
    var statements := Lex(FRAGMENT).value;
    assert Middle(statements) == [a];
    assert Body(FRAGMENT) == "a;1";
  }

  const SWALLOWED: string := "begin;a;commit--commit\n;"

  lemma SwallowedStart() returns (statements: seq<Statement>)
    ensures |statements| == 2 && statements[0].tokens == BEGIN && statements[1].tokens == ["a"]
    ensures Run(Fresh([]), "begin;a;commit--") == Reading(LineComment, "commit--", COMMIT, statements)
  {
    CommentedWords();
    BeginTokens();
    hide *;
    var begin := RunOneWord([], "begin");
    var a := RunOneWord([begin], "a");
    assert "begin" + ";" == "begin;" && "a" + ";" == "a;" && [] + [begin] == [begin];
    statements := [begin] + [a];
    RunThen(Fresh([]), "begin;", Fresh([begin]), "a;", Fresh(statements));
    CommitThenDashes(statements);
    var s := Reading(LineComment, "commit--", COMMIT, statements);
    RunThen(Fresh([]), "begin;" + "a;", Fresh(statements), ("commit" + "-") + "-", s);
    assert ("begin;" + "a;") + (("commit" + "-") + "-") == "begin;a;commit--";
  }

  lemma DashSteps(statements: seq<Statement>)
    ensures Step(Reading(Word("commit"), "commit", [], statements), '-') == Reading(Dash, "commit-", COMMIT, statements)
    ensures Step(Reading(Dash, "commit-", COMMIT, statements), '-') == Reading(LineComment, "commit--", COMMIT, statements)
  {
    CommentedWords();
    BeginTokens();
    hide Casefold, Run;
    assert "commit" + ['-'] == "commit-" && "commit-" + ['-'] == "commit--" && [] + ["commit"] == ["commit"];
  }

  lemma CommitThenDashes(statements: seq<Statement>)
    ensures Run(Fresh(statements), ("commit" + "-") + "-") == Reading(LineComment, "commit--", COMMIT, statements)
  {
    var word := Reading(Word("commit"), "commit", [], statements);
    var dash := Reading(Dash, "commit-", COMMIT, statements);
    CommentedWords();
    DashSteps(statements);
    assert "" + "commit" == "commit";
    assert Fresh(statements) == Reading(Normal, "", [], statements);
    hide *;
    RunWord("", [], statements, "commit");
    RunChar(word, '-');
    RunChar(dash, '-');
    RunThen(Fresh(statements), "commit", word, "-", dash);
    RunThen(Fresh(statements), "commit" + "-", dash, "-", Step(dash, '-'));
  }

  lemma SwallowedOpens()
    ensures OpeningEnd(SWALLOWED) == 6
  {
    assert |SWALLOWED| == 24 && SWALLOWED[5] == ';' && SWALLOWED[0] == 'b';
    assert SkipSpace(SWALLOWED, 0) == 0 && SkipSpace(SWALLOWED, 5) == 5;
    hide Casefold, SkipSpace;
    assert SWALLOWED[0..5] == "begin";
    CommentedWords();
  }

  lemma SwallowedCloses()
    ensures ClosingStart(SWALLOWED) == 16
  {
    assert |SWALLOWED| == 24 && SWALLOWED[23] == ';' && SWALLOWED[22] == '\n' && SWALLOWED[21] == 't';
    hide Casefold;
    assert SWALLOWED[16..22] == "commit";
    CommentedWords();
  }

  lemma SwallowedBody()
    ensures Strip(SWALLOWED[6..16]) == "a;commit--"
  {
    StripUnique("", "a;commit--", "");
    assert "" + "a;commit--" + "" == SWALLOWED[6..16];
  }

  /** The newline after the comment makes the semicolon after it a top-level one, with nothing behind it. */
  lemma SwallowedTail(s: State)
    requires s.Reading? && s.mode.LineComment?
    ensures
      var end := Run(s, "commit" + (("\n" + ";") + ""));
      end.Rejected? || end.raw == ""
  {
    var t := Run(s, "commit");
    CommentStays(s, "commit");
    var u := Step(t, '\n');
    assert u.Reading? && InCode(u.mode);
    SplitsExactlyInCode(u, ';');
    hide Run, Step;
    RunChar(t, '\n');
    RunChar(u, ';');
    RunThen(s, "commit", t, "\n", u);
    RunThen(s, "commit" + "\n", u, ";", Step(u, ';'));
    assert "commit" + (("\n" + ";") + "") == ("commit" + "\n") + ";";
  }

  /** That nothing but blanks follows the last top-level semicolon does not help: this file is accepted, nothing at
      all follows that semicolon, and the COMMIT left in the body is no statement there: it swallows the receipt. */
  lemma SwallowedCommitIsAccepted()
    ensures Unwrap(SWALLOWED) == Ok("a;commit--")
    ensures CommitCommentedOut(SWALLOWED) && !LeavesCommit(SWALLOWED)
    ensures Run(Fresh([]), SWALLOWED).Reading? && Run(Fresh([]), SWALLOWED).raw == ""
  {
    hide Run, Strip, OpeningEnd, ClosingStart, Casefold, Step;
    var statements := SwallowedStart();
    SwallowedOpens();
    SwallowedCloses();
    SwallowedBody();
    var s := Reading(LineComment, "commit--", COMMIT, statements);
    assert SWALLOWED[..16] == "begin;a;commit--";
    ClosingInComment(s, "commit", "\n", "");
    SwallowedTail(s);
    var closing := "commit" + (("\n" + ";") + "");
    assert SWALLOWED == "begin;a;commit--" + closing;
    RunThen(Fresh([]), "begin;a;commit--", s, closing, Run(s, closing));
    var raw :| Lex(SWALLOWED) == Ok(statements + [Statement(raw, COMMIT)]);
    assert Middle(statements + [Statement(raw, COMMIT)]) == [statements[1]];
    assert Body(SWALLOWED) == "a;commit--";
  }
}
