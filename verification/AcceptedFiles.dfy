/** Which files are deployed: any statements in the wrapper, put together from the constructs of SQL, none of which does
    anything to the transaction. */
module AcceptedFiles {
  import opened Text
  import opened SqlLexer
  import opened LexerLaws
  import opened SqlPieces
  import opened SqlItems
  import opened SqlRegions
  import opened TransactionStatus
  import opened Transaction
  import opened DeploymentText
  import opened AtomicRequest
  import opened MigrationFiles
  import opened Deployment
  import opened Progress

  /** How a file writes its BEGIN and COMMIT: a byte order mark or none, letters of either case, blanks where they may be. */
  datatype Wrapper = Wrapper(mark: string, before: string, begin: string, space: string, commit: string, gap: string, tail: string)

  predicate IsWrapper(w: Wrapper) {
    && (w.mark == "" || w.mark == [BYTE_ORDER_MARK])
    && IsBlank(w.before) && IsBlank(w.space) && IsBlank(w.gap) && IsBlank(w.tail)
    && Casefold(w.begin) == "begin" && Casefold(w.commit) == "commit"
  }

  function Opening(w: Wrapper): string {
    (w.mark + w.before) + (w.begin + (w.space + ";"))
  }

  function Closing(w: Wrapper): string {
    w.commit + ((w.gap + ";") + w.tail)
  }

  function FileOf(w: Wrapper, all: seq<seq<Region>>): string {
    (Opening(w) + StatementsText(all)) + Closing(w)
  }

  /** Each is a statement that leaves the transaction alone. */
  predicate AreHarmless(all: seq<seq<Region>>) {
    && all != []
    && forall i :: 0 <= i < |all| ==>
         AreRegions(all[i]) && RegionsTokens(all[i]) != [] && EffectOf(RegionsTokens(all[i])) == Effect.Nothing
  }

  lemma {:induction false} HarmlessStatements(all: seq<seq<Region>>)
    requires forall i :: 0 <= i < |all| ==> RegionsTokens(all[i]) != [] && EffectOf(RegionsTokens(all[i])) == Effect.Nothing
    ensures |StatementsOf(all)| == |all| && !Controls(StatementsOf(all))
  {
    if all != [] {
      HarmlessStatements(all[1..]);
      hide EffectOf, IsTransactionControl, RegionsTokens, StatementText, Strip;
      ControlExactlyWhenEffect(RegionsTokens(all[0]));
      var first := Statement(Strip(StatementText(all[0])), RegionsTokens(all[0]));
      assert StatementsOf(all) == [first] + StatementsOf(all[1..]);
    }
  }

  lemma Ends(all: seq<seq<Region>>)
    requires all != []
    ensures var text := StatementsText(all); text != "" && text[|text| - 1] == ';'
  {
    if |all| > 1 {
      Ends(all[1..]);
      hide StatementText;
    } else {
      assert all[1..] == [];
    }
  }

  lemma {:induction false} SkipsBlank(s: string, i: nat, j: nat)
    requires i <= j <= |s| && IsBlank(s[i..j]) && (j < |s| ==> !IsSpace(s[j]))
    ensures SkipSpace(s, i) == j
    decreases j - i
  {
    if i < j {
      assert s[i] == s[i..j][0] && s[i + 1..j] == s[i..j][1..];
      SkipsBlank(s, i + 1, j);
    }
  }

  lemma {:induction false} SkipsBlankBack(s: string, i: nat, j: nat)
    requires i <= j <= |s| && IsBlank(s[i..j]) && (i > 0 ==> !IsSpace(s[i - 1]))
    ensures SkipSpaceBack(s, j) == i
    decreases j
  {
    if i < j {
      assert s[j - 1] == s[i..j][j - 1 - i] && s[i..j - 1] == s[i..j][..j - 1 - i];
      SkipsBlankBack(s, i, j - 1);
    }
  }

  lemma LettersOnly(word: string, lower: string)
    requires Casefold(word) == lower && lower != "" && forall i :: 0 <= i < |lower| ==> 'a' <= lower[i] <= 'z'
    ensures |word| == |lower| && IsAlpha(word[0]) && IsAlpha(word[|word| - 1])
    ensures !IsSpace(word[0]) && !IsSpace(word[|word| - 1]) && word[0] != BYTE_ORDER_MARK
  {
    FoldedLetter(word[0], lower[0]);
    FoldedLetter(word[|word| - 1], lower[|lower| - 1]);
    hide IsAlpha, IsSpace, Lower;
  }

  lemma FoldedLetter(c: char, lower: char)
    requires Lower(c) == lower && 'a' <= lower <= 'z'
    ensures IsAlpha(c) && !IsSpace(c) && c != BYTE_ORDER_MARK
  {}

  lemma WordsAreLetters()
    ensures forall i :: 0 <= i < 5 ==> 'a' <= "begin"[i] <= 'z'
    ensures forall i :: 0 <= i < 6 ==> 'a' <= "commit"[i] <= 'z'
    ensures !IsSpace(';') && !IsSpace(BYTE_ORDER_MARK)
  {}

  /** The pattern's opening matches at the start of the file. */
  lemma FileOpens(w: Wrapper, rest: string)
    requires IsWrapper(w)
    ensures OpeningEnd(Opening(w) + rest) == |Opening(w)|
  {
    hide SkipSpace, Casefold, IsBlank;
    var file := Opening(w) + rest;
    var a, b := |w.mark|, |w.mark| + |w.before|;
    var c := b + |w.begin|;
    var d := c + |w.space|;
    WordsAreLetters();
    LettersOnly(w.begin, "begin");
    assert file[a..b] == w.before && file[b..c] == w.begin && file[c..d] == w.space && file[d] == ';';
    assert file[b] == w.begin[0];
    MarkFirst(w, rest);
    SkipsBlank(file, a, b);
    SkipsBlank(file, c, d);
  }

  lemma MarkFirst(w: Wrapper, rest: string)
    requires IsWrapper(w) && w.begin != "" && w.begin[0] != BYTE_ORDER_MARK
    ensures
      var file := Opening(w) + rest;
      file != "" && (file[0] == BYTE_ORDER_MARK <==> |w.mark| == 1) && |w.mark| <= 1
  {
    var file := Opening(w) + rest;
    assert !IsSpace(BYTE_ORDER_MARK);
    if w.mark != "" {
      assert file[0] == w.mark[0];
    } else if w.before != "" {
      assert file[0] == w.before[0] && IsSpace(w.before[0]);
    } else {
      assert file[0] == w.begin[0];
    }
  }

  /** And its closing at the end. */
  lemma FileCloses(w: Wrapper, front: string)
    requires IsWrapper(w) && front != "" && front[|front| - 1] == ';'
    ensures ClosingStart(front + Closing(w)) == |front|
  {
    hide SkipSpaceBack, Casefold, IsBlank, IsSpace, IsAlpha, Closing;
    var file := front + Closing(w);
    var a := |front| + |w.commit|;
    var b := a + |w.gap|;
    WordsAreLetters();
    LettersOnly(w.commit, "commit");
    ClosingCut(w, front);
    SkipsBlankBack(file, b + 1, |file|);
    SkipsBlankBack(file, a, b);
  }

  lemma ClosingCut(w: Wrapper, front: string)
    requires w.commit != ""
    ensures
      var file := front + Closing(w);
      var a := |front| + |w.commit|;
      var b := a + |w.gap|;
      && b < |file| && file[|front|..a] == w.commit && file[a..b] == w.gap && file[b] == ';' && file[b + 1..|file|] == w.tail
      && file[a - 1] == w.commit[|w.commit| - 1]
  {
    hide Casefold;
  }

  /** Where the closing COMMIT is reached, and what the whole file is split into. */
  lemma FileLexes(w: Wrapper, all: seq<seq<Region>>) returns (begin: Statement, commit: Statement)
    requires IsWrapper(w) && forall i :: 0 <= i < |all| ==> AreRegions(all[i])
    ensures begin.tokens == BEGIN && commit.tokens == COMMIT
    ensures Run(Fresh([]), Opening(w) + StatementsText(all)) == Fresh([begin] + StatementsOf(all))
    ensures Lex(FileOf(w, all)) == Ok(([begin] + StatementsOf(all)) + [commit])
  {
    hide Run, StatementsText, StatementsOf, AreRegions, IsWord, Casefold, Opening, Closing, OpeningEnd;
    begin := WrapperBegins(w);
    RunStatements([begin], all);
    var inside := [begin] + StatementsOf(all);
    RunThen(Fresh([]), Opening(w), Fresh([begin]), StatementsText(all), Fresh(inside));
    commit := WrapperEnds(w, inside);
    RunThen(Fresh([]), Opening(w) + StatementsText(all), Fresh(inside), Closing(w), Run(Fresh(inside), Closing(w)));
  }

  lemma WrapperBegins(w: Wrapper) returns (begin: Statement)
    requires IsWrapper(w)
    ensures begin.tokens == BEGIN && Run(Fresh([]), Opening(w)) == Fresh([begin])
  {
    hide Run, OpeningEnd, Opening;
    FileOpens(w, "");
    assert Opening(w) + "" == Opening(w) && Opening(w)[..|Opening(w)|] == Opening(w);
    begin := RunOpening(Opening(w));
  }

  lemma WrapperEnds(w: Wrapper, statements: seq<Statement>) returns (commit: Statement)
    requires IsWrapper(w)
    ensures commit.tokens == COMMIT && Outcome(Fresh(statements), Closing(w)) == Ok(statements + [commit])
  {
    hide Run;
    ClosingInCode(Fresh(statements), w.commit, w.gap, w.tail);
    commit := Statement(Strip(("" + w.commit) + (w.gap + ";")), [] + [Casefold("" + w.commit)]);
    assert "" + w.commit == w.commit && [] + ["commit"] == COMMIT;
  }

  /** The statements end with a semicolon, so the body leaves nothing open. */
  lemma BodyLeavesNothing(text: string, statements: seq<Statement>)
    requires text != "" && text[|text| - 1] == ';' && Run(Fresh([]), text) == Fresh(statements)
    ensures Strip(text) != "" && !LeavesFragment(Strip(text))
  {
    hide Run, Strip;
    var before, after := StripParts(text);
    NoBlankEnd(before + Strip(text), after);
    RunSpaces("", [], [], before);
    assert "" + before == before && before + "" == before;
    var s := State.Reading(Normal, before, [], []);
    var left := ShiftedRun(s, Fresh([]), [], before, Strip(text));
    RunThen(Fresh([]), before, s, Strip(text), Run(s, Strip(text)));
    assert Run(Fresh([]), Strip(text)).Reading? ==> Run(Fresh([]), Strip(text)).raw == "";
    NothingSaid();
  }

  lemma NothingSaid()
    ensures Items("") == []
  {}

  /** Such a file is accepted with its statements as the body, keeps its COMMIT out of comments and leaves no fragment. */
  lemma HarmlessFileIsAccepted(w: Wrapper, all: seq<seq<Region>>)
    requires IsWrapper(w) && AreHarmless(all)
    ensures Unwrap(FileOf(w, all)) == Ok(Strip(StatementsText(all)))
    ensures !CommitCommentedOut(FileOf(w, all)) && !LeavesFragment(Strip(StatementsText(all)))
  {
    hide Run, Lex, IsRegion, StatementsText, StatementsOf, RegionsTokens, EffectOf, AreRegions, Strip, OpeningEnd, ClosingStart;
    hide LeavesFragment, IsTransactionControl, Opening, Closing, IsWrapper, Controls;
    var begin, commit := FileLexes(w, all);
    HarmlessStatements(all);
    Ends(all);
    RunStatements([], all);
    assert [] + StatementsOf(all) == StatementsOf(all);
    BodyLeavesNothing(StatementsText(all), StatementsOf(all));
    FileCut(w, StatementsText(all));
    MiddleOf(begin, StatementsOf(all), commit);
    hide Middle;
  }

  lemma MiddleOf(begin: Statement, statements: seq<Statement>, commit: Statement)
    ensures Middle(([begin] + statements) + [commit]) == statements
  {}

  /** The file is cut at the ends of its wrapper. */
  lemma FileCut(w: Wrapper, text: string)
    requires IsWrapper(w) && text != "" && text[|text| - 1] == ';'
    ensures
      var file := (Opening(w) + text) + Closing(w);
      && OpeningEnd(file) == |Opening(w)| && ClosingStart(file) == |Opening(w) + text|
      && file[OpeningEnd(file)..ClosingStart(file)] == text && file[..ClosingStart(file)] == Opening(w) + text
  {
    hide Opening, Closing, OpeningEnd, ClosingStart, IsWrapper;
    var front := Opening(w) + text;
    Assoc(Opening(w), text, Closing(w));
    FileOpens(w, text + Closing(w));
    assert front[|front| - 1] == text[|text| - 1];
    FileCloses(w, front);
    assert (front + Closing(w))[|Opening(w)|..|front|] == text && (front + Closing(w))[..|front|] == front;
  }

  /** So its migration can be deployed. */
  lemma HarmlessFileIsDeployable(w: Wrapper, all: seq<seq<Region>>, m: Migration)
    requires IsWrapper(w) && AreHarmless(all) && m.body == Strip(StatementsText(all))
    ensures IsDeployable(m) && WholeFile(m)
  {
    hide AreHarmless, IsWrapper, Unwrap, CommitCommentedOut, LeavesFragment, Strip;
    HarmlessFileIsAccepted(w, all);
  }
}
