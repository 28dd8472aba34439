/** Laws of the statement splitter: what it makes of texts put together, and of its own output. */
module LexerLaws {
  import opened Text
  import opened SqlLexer

  /** The modes in which the next character is read as code, so that a semicolon ends the statement. */
  predicate InCode(mode: Mode) {
    mode.Normal? || mode.Word? || mode.Dash? || mode.Slash? || mode.QuotedQuote? || mode.IdentifierQuote? || mode.DollarTag?
  }

  /** A semicolon ends the statement exactly where the automaton reads code; nothing else ever ends one. */
  lemma SplitsExactlyInCode(s: State, c: char)
    requires s.Reading?
    ensures var t := Step(s, c); (t.Reading? && t.raw == "") <==> (InCode(s.mode) && c == ';')
  {
    assert |s.raw + [c]| > 0;
  }

  /** The tokens of the open statement, with the word that is still being read. */
  function Pending(s: State): seq<Token>
    requires s.Reading?
  {
    if s.mode.Word? then s.tokens + [Casefold(s.mode.text)]
    else if s.mode.DollarTag? then s.tokens + TagWord(s.mode.tag)
    else s.tokens
  }

  lemma FinishInCode(s: State)
    requires s.Reading? && InCode(s.mode)
    ensures Finish(s) == Ok(Split(s.raw, Pending(s), s.statements))
  {}

  /** The character is the second one of a two-character mark, or belongs to the pending word. */
  predicate GoesOn(mode: Mode, c: char) {
    match mode
    case Word(_) => IsWordChar(c)
    case Dash => c == '-'
    case Slash => c == '*'
    case QuotedQuote(_) => c == '\''
    case IdentifierQuote => c == '"'
    case DollarTag(tag) => c == '$' || IsNameStart(c) || (tag != "" && IsNameChar(c))
    case _ => false
  }

  /** In code, any other character ends whatever was pending. */
  lemma StepInCode(s: State, c: char)
    requires s.Reading? && InCode(s.mode) && !GoesOn(s.mode, c)
    ensures Step(s, c) == StepNormal(s.raw, Pending(s), s.statements, c)
  {}

  /** `s` has read what `t` has read, after statements `earlier` and some blanks. */
  ghost predicate Shifted(s: State, t: State, earlier: seq<Statement>, blank: string) {
    if s.Rejected? || t.Rejected? then s == t else
    && s.mode == t.mode
    && s.tokens == t.tokens
    && s.statements == earlier + t.statements
    && IsBlank(blank)
    && s.raw == blank + t.raw
  }

  lemma EscapeAfterBlank(blank: string, raw: string)
    requires IsBlank(blank)
    ensures EscapeOpens(blank + raw) == EscapeOpens(raw)
  {
    var s := blank + raw;
    if raw == "" {
      if blank != "" { assert s[|s| - 1] == blank[|blank| - 1]; }
    } else {
      assert s[|s| - 1] == raw[|raw| - 1];
      if |raw| == 1 {
        if blank != "" { assert s[|s| - 2] == blank[|blank| - 1]; }
      } else {
        assert s[|s| - 2] == raw[|raw| - 2];
      }
    }
  }

  lemma SplitAfterBlank(blank: string, raw: string, tokens: seq<Token>, earlier: seq<Statement>, statements: seq<Statement>)
    requires IsBlank(blank)
    ensures Split(blank + raw, tokens, earlier + statements) == earlier + Split(raw, tokens, statements)
  {
    StripAround(blank, raw, "");
    assert blank + raw + "" == blank + raw;
  }

  lemma ShiftedNormal(raw: string, tokens: seq<Token>, statements: seq<Statement>, c: char, earlier: seq<Statement>, blank: string)
    returns (left: string)
    requires IsBlank(blank)
    ensures Shifted(StepNormal(blank + raw, tokens, earlier + statements, c), StepNormal(raw, tokens, statements, c), earlier, left)
  {
    assert (blank + raw) + [c] == blank + (raw + [c]);
    if c == ';' {
      SplitAfterBlank(blank, raw + [c], tokens, earlier, statements);
      left := "";
    } else {
      EscapeAfterBlank(blank, raw);
      left := blank;
    }
  }

  lemma ShiftedStep(s: State, t: State, earlier: seq<Statement>, blank: string, c: char) returns (left: string)
    requires Shifted(s, t, earlier, blank)
    ensures Shifted(Step(s, c), Step(t, c), earlier, left)
  {
    left := blank;
    if s.Reading? {
      if InCode(s.mode) && !GoesOn(s.mode, c) {
        StepInCode(s, c);
        StepInCode(t, c);
        left := ShiftedNormal(t.raw, Pending(t), t.statements, c, earlier, blank);
      } else {
        assert s.raw + [c] == blank + (t.raw + [c]);
      }
    }
  }

  lemma {:induction false} ShiftedRun(s: State, t: State, earlier: seq<Statement>, blank: string, text: string) returns (left: string)
    requires Shifted(s, t, earlier, blank)
    ensures Shifted(Run(s, text), Run(t, text), earlier, left)
    decreases |text|
  {
    left := blank;
    if text != "" {
      left := ShiftedStep(s, t, earlier, blank, text[0]);
      left := ShiftedRun(Step(s, text[0]), Step(t, text[0]), earlier, left, text[1..]);
    }
  }

  function Prepend(earlier: seq<Statement>, r: Lexed): Lexed {
    if r.Ok? then Ok(earlier + r.value) else r
  }

  lemma ShiftedFinish(s: State, t: State, earlier: seq<Statement>, blank: string)
    requires Shifted(s, t, earlier, blank)
    ensures Finish(s) == Prepend(earlier, Finish(t))
  {
    if s.Reading? {
      SplitAfterBlank(blank, t.raw, t.tokens, earlier, t.statements);
      match s.mode {
        case Word(w) => SplitAfterBlank(blank, t.raw, t.tokens + [Casefold(w)], earlier, t.statements);
        case DollarTag(tag) => SplitAfterBlank(blank, t.raw, t.tokens + TagWord(tag), earlier, t.statements);
        case _ =>
      }
    }
  }

  /** After a top-level semicolon, or blanks after it, the splitter starts afresh: the look-back for escape
      strings sees nothing of what came before. */
  lemma LexConcat(a: string, b: string, earlier: seq<Statement>, blank: string)
    requires IsBlank(blank) && Run(Fresh([]), a) == Reading(Normal, blank, [], earlier)
    ensures Lex(a) == Ok(earlier)
    ensures Lex(a + b) == Prepend(earlier, Lex(b))
  {
    RunConcat(Fresh([]), a, b);
    var left := ShiftedRun(Run(Fresh([]), a), Fresh([]), earlier, blank, b);
    ShiftedFinish(Run(Fresh([]), a + b), Run(Fresh([]), b), earlier, left);
  }

  lemma {:induction false} RunBlank(raw: string, statements: seq<Statement>, blank: string)
    requires IsBlank(blank)
    ensures Run(Reading(Normal, raw, [], statements), blank) == Reading(Normal, raw + blank, [], statements)
    decreases |blank|
  {
    if blank == "" {
      assert raw + "" == raw;
    } else {
      assert (raw + [blank[0]]) + blank[1..] == raw + blank;
      RunBlank(raw + [blank[0]], statements, blank[1..]);
    }
  }

  lemma LexLeadingBlank(blank: string, text: string)
    requires IsBlank(blank)
    ensures Lex(blank + text) == Lex(text)
  {
    RunBlank("", [], blank);
    assert "" + blank == blank;
    LexConcat(blank, text, [], blank);
    if Lex(text).Ok? { assert [] + Lex(text).value == Lex(text).value; }
  }

  /** A dollar-quote delimiter ends with a dollar sign; a word has begun. */
  ghost predicate WellFormed(s: State) {
    s.Reading? ==>
      && (s.mode.DollarBody? ==> s.mode.delimiter != "" && s.mode.delimiter[|s.mode.delimiter| - 1] == '$')
      && (s.mode.Word? ==> s.mode.text != "")
  }

  lemma {:induction false} WellFormedRun(s: State, text: string)
    requires WellFormed(s)
    ensures WellFormed(Run(s, text))
    decreases |text|
  {
    if text != "" { WellFormedRun(Step(s, text[0]), text[1..]); }
  }

  /** A blank at the end of an accepted text changes nothing. */
  lemma TrailingSpace(s: State, c: char)
    requires WellFormed(s) && IsSpace(c) && Finish(Step(s, c)).Ok?
    ensures Finish(s) == Finish(Step(s, c))
  {
    hide Strip;
    if s.Reading? {
      StripAround("", s.raw, [c]);
      assert "" + s.raw + [c] == s.raw + [c];
      if InCode(s.mode) {
        StepInCode(s, c);
        FinishInCode(s);
      }
    }
  }

  lemma {:induction false} TrailingBlank(s: State, blank: string)
    requires WellFormed(s) && IsBlank(blank) && Outcome(s, blank).Ok?
    ensures Finish(s) == Outcome(s, blank)
    decreases |blank|
  {
    if blank != "" {
      TrailingBlank(Step(s, blank[0]), blank[1..]);
      TrailingSpace(s, blank[0]);
    }
  }

  /** Stripping a text that lexes does not change what it lexes to. */
  lemma LexStrip(text: string)
    requires Lex(text).Ok?
    ensures Lex(Strip(text)) == Lex(text)
  {
    var before, after := StripParts(text);
    assert before + Strip(text) + after == before + (Strip(text) + after);
    LexLeadingBlank(before, Strip(text) + after);
    RunConcat(Fresh([]), Strip(text), after);
    WellFormedRun(Fresh([]), Strip(text));
    TrailingBlank(Run(Fresh([]), Strip(text)), after);
  }

  ghost predicate Relexes(statement: Statement) {
    Lex(statement.raw) == Ok([statement])
  }

  /** A state holds what its own raw text alone would give, and statements that stand on their own. */
  ghost predicate StandsAlone(s: State) {
    s.Reading? ==>
      && Run(Fresh([]), s.raw) == s.(statements := [])
      && forall i :: 0 <= i < |s.statements| ==> Relexes(s.statements[i])
  }

  lemma AloneThen(s: State, c: char)
    requires s.Reading? && StandsAlone(s)
    ensures Run(Fresh([]), s.raw + [c]) == Step(s.(statements := []), c)
  {
    RunConcat(Fresh([]), s.raw, [c]);
    assert [c][1..] == "";
  }

  lemma StandsAloneStep(s: State, c: char)
    requires StandsAlone(s)
    ensures StandsAlone(Step(s, c))
  {
    if s.Reading? {
      var alone := s.(statements := []);
      var next := Step(s, c);
      AloneThen(s, c);
      assert s.statements + [] == s.statements && "" + s.raw == s.raw;
      var left := ShiftedStep(s, alone, s.statements, "", c);
      if next.Reading? {
        SplitsExactlyInCode(s, c);
        SplitsExactlyInCode(alone, c);
        if next.raw == "" {
          AloneSplit(s, c);
        } else {
          StepKeepsOpen(s, c);
          StepKeepsOpen(alone, c);
        }
      }
    }
  }

  lemma StepKeepsOpen(s: State, c: char)
    requires s.Reading? && Step(s, c).Reading? && Step(s, c).raw != ""
    ensures Step(s, c).raw == s.raw + [c] && Step(s, c).statements == s.statements
  {}

  /** The statement that a semicolon completes stands on its own. */
  lemma CompletedRelexes(s: State, c: char)
    requires s.Reading? && StandsAlone(s) && InCode(s.mode) && c == ';' && Pending(s) != []
    ensures Relexes(Statement(Strip(s.raw + [c]), Pending(s)))
  {
    var last := Statement(Strip(s.raw + [c]), Pending(s));
    var alone := s.(statements := []);
    AloneThen(s, c);
    StepInCode(alone, c);
    assert Pending(alone) == Pending(s);
    assert Run(Fresh([]), s.raw + [c]) == Fresh([last]);
    LexStrip(s.raw + [c]);
  }

  lemma AloneSplit(s: State, c: char)
    requires s.Reading? && StandsAlone(s) && InCode(s.mode) && c == ';'
    ensures StandsAlone(Step(s, c))
  {
    StepInCode(s, c);
    assert Run(Fresh([]), "") == Fresh([]);
    if Pending(s) != [] { CompletedRelexes(s, c); }
  }

  lemma {:induction false} StandsAloneRun(s: State, text: string)
    requires StandsAlone(s)
    ensures StandsAlone(Run(s, text))
    decreases |text|
  {
    if text != "" {
      StandsAloneStep(s, text[0]);
      StandsAloneRun(Step(s, text[0]), text[1..]);
    }
  }

  /** The last statement may lack its semicolon. */
  lemma RelexLast(s: State)
    requires StandsAlone(s) && s.Reading? && Finish(s).Ok?
    ensures Finish(s).value == s.statements
         || exists last :: Relexes(last) && Finish(s).value == s.statements + [last]
  {
    var alone := s.(statements := []);
    assert s.statements + [] == s.statements && "" + s.raw == s.raw;
    ShiftedFinish(s, alone, s.statements, "");
    var open := Finish(alone).value;
    if open != [] {
      FinishOpen(alone);
      LexStrip(s.raw);
      assert Relexes(open[0]);
    }
  }

  lemma FinishOpen(s: State)
    requires s.Reading? && s.statements == [] && Finish(s).Ok? && Finish(s).value != []
    ensures Finish(s).value == [Statement(Strip(s.raw), Finish(s).value[0].tokens)]
  {}

  /** Lexing the raw text of any statement the splitter returns gives that one statement back. */
  lemma Relex(sql: string, i: nat)
    requires Lex(sql).Ok? && i < |Lex(sql).value|
    ensures Lex(Lex(sql).value[i].raw) == Ok([Lex(sql).value[i]])
  {
    assert Run(Fresh([]), "") == Fresh([]);
    StandsAloneRun(Fresh([]), sql);
    var s := Run(Fresh([]), sql);
    RelexLast(s);
    if i < |s.statements| { assert Relexes(s.statements[i]); }
  }
}
