/** The statement splitter of the migration deployer: a one-character-at-a-time automaton that says
    what the top-level statements of an SQL text are, and the index-jumping loop that computes them. */
module SqlLexer {
  import opened Text

  datatype LexError =
    | UnterminatedComment
    | UnterminatedEscapeString
    | AmbiguousBackslashQuote
    | UnterminatedString
    | UnterminatedQuotedIdentifier
    | UnterminatedDollarQuote

  type Token = string

  const QUOTED_IDENTIFIER: Token := "__quoted_identifier__"
  const DOLLAR_QUOTE: Token := "__dollar_quote__"

  datatype Statement = Statement(raw: string, tokens: seq<Token>)

  type Lexed = Result<seq<Statement>, LexError>

  /** Where in the SQL grammar the automaton stands. The modes after `Normal` that have seen only the first
      character of a two-character mark wait for the next character to tell what it was. */
  datatype Mode =
    | Normal
    | Word(text: string)
    | Dash
    | Slash
    | LineComment
    | BlockComment(depth: nat)
    | BlockSlash(depth: nat)
    | BlockStar(depth: nat)
    | Quoted(escape: bool)
    | QuotedBackslash(escape: bool)
    | QuotedQuote(escape: bool)
    | Identifier
    | IdentifierQuote
    | DollarTag(tag: string)
    | DollarBody(delimiter: string, seen: string)

  /** `raw` is the text and `tokens` the finished tokens since the last top-level semicolon. */
  datatype State =
    | Reading(mode: Mode, raw: string, tokens: seq<Token>, statements: seq<Statement>)
    | Rejected(error: LexError)

  function Fresh(statements: seq<Statement>): State {
    Reading(Normal, "", [], statements)
  }

  /** A quote opens an escape string when a lone `e` stands right before it. */
  predicate EscapeOpens(raw: string) {
    && raw != ""
    && raw[|raw| - 1] in "eE"
    && (|raw| == 1 || !IsWordChar(raw[|raw| - 2]))
  }

  function Split(raw: string, tokens: seq<Token>, statements: seq<Statement>): seq<Statement> {
    if tokens == [] then statements else statements + [Statement(Strip(raw), tokens)]
  }

  function StepNormal(raw: string, tokens: seq<Token>, statements: seq<Statement>, c: char): State {
    if c == ';' then Fresh(Split(raw + [c], tokens, statements))
    else if c == '"' then Reading(Identifier, raw + [c], tokens + [QUOTED_IDENTIFIER], statements)
    else Reading(Opened(raw, c), raw + [c], tokens, statements)
  }

  function Opened(raw: string, c: char): Mode {
    if IsNameStart(c) then Word([c])
    else if c == '-' then Dash
    else if c == '/' then Slash
    else if c == '\'' then Quoted(EscapeOpens(raw))
    else if c == '$' then DollarTag("")
    else Normal
  }

  predicate EndsWith(s: string, suffix: string) {
    |suffix| <= |s| && s[|s| - |suffix|..] == suffix
  }

  function Step(s: State, c: char): State {
    if s.Rejected? then s else
    var Reading(mode, raw, tokens, statements) := s;
    match mode
    case Normal => StepNormal(raw, tokens, statements, c)
    case Word(w) =>
      if IsWordChar(c) then Reading(Word(w + [c]), raw + [c], tokens, statements)
      else StepNormal(raw, tokens + [Casefold(w)], statements, c)
    case Dash =>
      if c == '-' then Reading(LineComment, raw + [c], tokens, statements)
      else StepNormal(raw, tokens, statements, c)
    case Slash =>
      if c == '*' then Reading(BlockComment(1), raw + [c], tokens, statements)
      else StepNormal(raw, tokens, statements, c)
    case LineComment =>
      Reading(if c == '\n' then Normal else LineComment, raw + [c], tokens, statements)
    case BlockComment(d) => Reading(InBlock(d, c), raw + [c], tokens, statements)
    case BlockSlash(d) =>
      Reading(if c == '*' then BlockComment(d + 1) else InBlock(d, c), raw + [c], tokens, statements)
    case BlockStar(d) =>
      Reading(
        if c != '/' then InBlock(d, c) else if d <= 1 then Normal else BlockComment(d - 1),
        raw + [c], tokens, statements)
    case Quoted(escape) => Reading(InQuotes(escape, c), raw + [c], tokens, statements)
    case QuotedBackslash(escape) =>
      if escape then Reading(Quoted(true), raw + [c], tokens, statements)
      else if c == '\'' then Rejected(AmbiguousBackslashQuote)
      else Reading(InQuotes(false, c), raw + [c], tokens, statements)
    case QuotedQuote(escape) =>
      if c == '\'' then Reading(Quoted(escape), raw + [c], tokens, statements)
      else StepNormal(raw, tokens, statements, c)
    case Identifier =>
      Reading(if c == '"' then IdentifierQuote else Identifier, raw + [c], tokens, statements)
    case IdentifierQuote =>
      if c == '"' then Reading(Identifier, raw + [c], tokens, statements)
      else StepNormal(raw, tokens, statements, c)
    case DollarTag(tag) =>
      if c == '$' then
        Reading(DollarBody("$" + tag + "$", ""), raw + [c], tokens + [DOLLAR_QUOTE], statements)
      else if IsNameStart(c) || (tag != "" && IsNameChar(c)) then
        Reading(DollarTag(tag + [c]), raw + [c], tokens, statements)
      else
        StepNormal(raw, tokens + TagWord(tag), statements, c)
    case DollarBody(delimiter, seen) =>
      Reading(
        if EndsWith(seen + [c], delimiter) then Normal else DollarBody(delimiter, seen + [c]),
        raw + [c], tokens, statements)
  }

  function InBlock(depth: nat, c: char): Mode {
    if c == '/' then BlockSlash(depth) else if c == '*' then BlockStar(depth) else BlockComment(depth)
  }

  function InQuotes(escape: bool, c: char): Mode {
    if c == '\\' then QuotedBackslash(escape) else if c == '\'' then QuotedQuote(escape) else Quoted(escape)
  }

  /** What looked like a dollar-quote tag is an ordinary word when no second dollar sign follows. */
  function TagWord(tag: string): seq<Token> {
    if tag == "" then [] else [Casefold(tag)]
  }

  function Run(s: State, text: string): State
    decreases |text|
  {
    if text == "" then s else Run(Step(s, text[0]), text[1..])
  }

  /** The end of the text finishes a pending word and accepts, or finds something unterminated. */
  function Finish(s: State): Lexed {
    if s.Rejected? then Err(s.error) else
    var Reading(mode, raw, tokens, statements) := s;
    match mode
    case Normal | Dash | Slash | LineComment | QuotedQuote(_) | IdentifierQuote =>
      Ok(Split(raw, tokens, statements))
    case Word(w) => Ok(Split(raw, tokens + [Casefold(w)], statements))
    case DollarTag(tag) => Ok(Split(raw, tokens + TagWord(tag), statements))
    case BlockComment(_) | BlockSlash(_) | BlockStar(_) => Err(UnterminatedComment)
    case QuotedBackslash(escape) => Err(if escape then UnterminatedEscapeString else UnterminatedString)
    case Quoted(_) => Err(UnterminatedString)
    case Identifier => Err(UnterminatedQuotedIdentifier)
    case DollarBody(_, _) => Err(UnterminatedDollarQuote)
  }

  function Outcome(s: State, text: string): Lexed {
    Finish(Run(s, text))
  }

  /** The top-level statements of a text, by the automaton. */
  function Lex(sql: string): Lexed {
    Outcome(Fresh([]), sql)
  }

  // ---------------------------------------------------------------------------------------------
  // The automaton along a text
  // ---------------------------------------------------------------------------------------------

  lemma {:induction false} RunConcat(s: State, a: string, b: string)
    ensures Run(s, a + b) == Run(Run(s, a), b)
    decreases |a|
  {
    if a == "" {
      assert a + b == b;
    } else {
      assert (a + b)[1..] == a[1..] + b;
      RunConcat(Step(s, a[0]), a[1..], b);
    }
  }

  /** One text after another. */
  lemma RunThen(s: State, a: string, t: State, b: string, u: State)
    requires Run(s, a) == t && Run(t, b) == u
    ensures Run(s, a + b) == u
  {
    RunConcat(s, a, b);
  }

  lemma RunChar(s: State, c: char)
    ensures Run(s, [c]) == Step(s, c)
  {
    assert [c][1..] == "";
  }

  lemma {:induction false} RunRejected(s: State, text: string)
    requires s.Rejected?
    ensures Run(s, text) == s
    decreases |text|
  {
    if text != "" { RunRejected(s, text[1..]); }
  }

  lemma RunOne(s: State, sql: string, i: nat)
    requires i < |sql|
    ensures Run(s, sql[i..]) == Run(Step(s, sql[i]), sql[i + 1..])
  {
    assert sql[i..][1..] == sql[i + 1..];
  }

  /** A mode that no character of `sql[i..j]` leaves is still there at `j`. */
  ghost predicate Stays(mode: Mode, sql: string, i: nat, j: nat) {
    && i <= j <= |sql|
    && match mode
       case LineComment => forall k :: i <= k < j ==> sql[k] != '\n'
       case Word(_) => forall k :: i <= k < j ==> IsWordChar(sql[k])
       case Normal => forall k :: i <= k < j ==> IsSpace(sql[k])
       case DollarBody(delimiter, seen) =>
         forall k :: i < k <= j ==> !EndsWith(seen + sql[i..k], delimiter)
       case _ => false
  }

  function Grown(mode: Mode, more: string): Mode {
    match mode
    case Word(w) => Word(w + more)
    case DollarBody(delimiter, seen) => DollarBody(delimiter, seen + more)
    case _ => mode
  }

  lemma {:induction false} RunStays(s: State, sql: string, i: nat, j: nat)
    requires s.Reading? && Stays(s.mode, sql, i, j)
    ensures Run(s, sql[i..]) == Run(s.(mode := Grown(s.mode, sql[i..j]), raw := s.raw + sql[i..j]), sql[j..])
    decreases j - i
  {
    if i == j {
      assert sql[i..j] == "" && s.raw + "" == s.raw;
      match s.mode {
        case Word(w) => assert w + "" == w;
        case DollarBody(d, seen) => assert seen + "" == seen;
        case _ =>
      }
    } else {
      RunOne(s, sql, i);
      var c := sql[i];
      assert sql[i..i + 1] == [c];
      var t := s.(mode := Grown(s.mode, [c]), raw := s.raw + [c]);
      assert Step(s, c) == t;
      assert [c] + sql[i + 1..j] == sql[i..j];
      assert (s.raw + [c]) + sql[i + 1..j] == s.raw + sql[i..j];
      match s.mode {
        case Word(w) => assert (w + [c]) + sql[i + 1..j] == w + sql[i..j];
        case DollarBody(d, seen) =>
          assert (seen + [c]) + sql[i + 1..j] == seen + sql[i..j];
          var next := i + 1;
          forall k | next < k <= j ensures !EndsWith((seen + [c]) + sql[next..k], d) {
            assert (seen + [c]) + sql[next..k] == seen + sql[i..k];
          }
        case _ =>
      }
      RunStays(t, sql, i + 1, j);
    }
  }

  // ---------------------------------------------------------------------------------------------
  // The index-jumping splitter
  // ---------------------------------------------------------------------------------------------

  /** What the automaton still has to say from index `i`, in the given mode, when the statement began at `start`. */
  ghost function Ahead(mode: Mode, sql: string, start: nat, i: nat, tokens: seq<Token>, statements: seq<Statement>): Lexed
    requires start <= i <= |sql|
  {
    Outcome(Reading(mode, sql[start..i], tokens, statements), sql[i..])
  }

  /** One step that leaves the statement open moves the index by one. */
  lemma Onward(mode: Mode, sql: string, start: nat, i: nat, tokens: seq<Token>, statements: seq<Statement>,
               next: Mode, more: seq<Token>)
    requires start <= i < |sql|
    requires Step(Reading(mode, sql[start..i], tokens, statements), sql[i])
          == Reading(next, sql[start..i] + [sql[i]], more, statements)
    ensures Ahead(mode, sql, start, i, tokens, statements) == Ahead(next, sql, start, i + 1, more, statements)
  {
    assert sql[start..i] + [sql[i]] == sql[start..i + 1];
    RunOne(Reading(mode, sql[start..i], tokens, statements), sql, i);
  }

  /** Two modes that take the next character alike, or finish alike at the end, have the same outcome. */
  lemma Same(mode: Mode, other: Mode, sql: string, start: nat, i: nat, tokens: seq<Token>, more: seq<Token>, statements: seq<Statement>)
    requires start <= i <= |sql|
    requires
      var s, t := Reading(mode, sql[start..i], tokens, statements), Reading(other, sql[start..i], more, statements);
      if i == |sql| then Finish(s) == Finish(t) else Step(s, sql[i]) == Step(t, sql[i])
    ensures Ahead(mode, sql, start, i, tokens, statements) == Ahead(other, sql, start, i, more, statements)
  {
    var s, t := Reading(mode, sql[start..i], tokens, statements), Reading(other, sql[start..i], more, statements);
    if i < |sql| {
      RunOne(s, sql, i);
      RunOne(t, sql, i);
    }
  }

  lemma AheadStays(mode: Mode, sql: string, start: nat, i: nat, j: nat, tokens: seq<Token>, statements: seq<Statement>)
    requires start <= i && Stays(mode, sql, i, j)
    ensures Ahead(mode, sql, start, i, tokens, statements)
         == Ahead(Grown(mode, sql[i..j]), sql, start, j, tokens, statements)
  {
    assert sql[start..i] + sql[i..j] == sql[start..j];
    RunStays(Reading(mode, sql[start..i], tokens, statements), sql, i, j);
  }

  predicate StartsAt(sql: string, mark: string, i: nat) {
    i + |mark| <= |sql| && sql[i..i + |mark|] == mark
  }

  /** `str.find`: the first occurrence of `mark` at or after `from`. */
  method Find(sql: string, mark: string, from: nat) returns (r: int)
    requires from <= |sql|
    ensures r < 0 ==> forall k: nat :: from <= k ==> !StartsAt(sql, mark, k)
    ensures r >= 0 ==> from <= r && StartsAt(sql, mark, r)
    ensures r >= 0 ==> forall k: nat :: from <= k < r ==> !StartsAt(sql, mark, k)
  {
    var i := from;
    while i + |mark| <= |sql|
      invariant from <= i
      invariant forall k: nat :: from <= k < i ==> !StartsAt(sql, mark, k)
    {
      if StartsAt(sql, mark, i) { return i; }
      i := i + 1;
    }
    return -1;
  }

  lemma InLineComment(sql: string, from: nat, stop: nat)
    requires from <= stop <= |sql| && forall k: nat :: from <= k < stop ==> !StartsAt(sql, "\n", k)
    ensures Stays(LineComment, sql, from, stop)
  {
    forall k | from <= k < stop ensures sql[k] != '\n' { assert !StartsAt(sql, "\n", k); }
  }

  lemma LineCommentEnds(sql: string, start: nat, i: nat, tokens: seq<Token>, statements: seq<Statement>)
    requires start <= i <= |sql| && (i == |sql| || StartsAt(sql, "\n", i))
    ensures Ahead(LineComment, sql, start, i, tokens, statements)
         == Ahead(Normal, sql, start, if i == |sql| then i else i + 1, tokens, statements)
  {
    hide Ahead;
    if i == |sql| {
      Same(LineComment, Normal, sql, start, i, tokens, tokens, statements);
    } else {
      assert sql[i] == sql[i..i + 1][0];
      Onward(LineComment, sql, start, i, tokens, statements, Normal, tokens);
    }
  }

  method SkipLineComment(sql: string, start: nat, from: nat, ghost tokens: seq<Token>, ghost statements: seq<Statement>)
    returns (index: nat)
    requires start <= from <= |sql|
    ensures from <= index <= |sql|
    ensures Ahead(LineComment, sql, start, from, tokens, statements) == Ahead(Normal, sql, start, index, tokens, statements)
  {
    var newline := Find(sql, "\n", from);
    var stop := if newline < 0 then |sql| else newline;
    index := if newline < 0 then |sql| else newline + 1;
    InLineComment(sql, from, stop);
    AheadStays(LineComment, sql, start, from, stop, tokens, statements);
    LineCommentEnds(sql, start, stop, tokens, statements);
    hide Ahead, Stays;
  }

  lemma BlockMark(sql: string, start: nat, i: nat, depth: nat, tokens: seq<Token>, statements: seq<Statement>)
    requires start <= i && i + 1 < |sql|
    ensures sql[i] == '/' && sql[i + 1] == '*' ==>
      Ahead(BlockComment(depth), sql, start, i, tokens, statements)
      == Ahead(BlockComment(depth + 1), sql, start, i + 2, tokens, statements)
    ensures sql[i] == '*' && sql[i + 1] == '/' ==>
      Ahead(BlockComment(depth), sql, start, i, tokens, statements)
      == Ahead(if depth <= 1 then Normal else BlockComment(depth - 1), sql, start, i + 2, tokens, statements)
  {
    hide Ahead;
    Onward(BlockComment(depth), sql, start, i, tokens, statements, InBlock(depth, sql[i]), tokens);
    if sql[i] == '/' && sql[i + 1] == '*' {
      Onward(BlockSlash(depth), sql, start, i + 1, tokens, statements, BlockComment(depth + 1), tokens);
    } else if sql[i] == '*' && sql[i + 1] == '/' {
      Onward(BlockStar(depth), sql, start, i + 1, tokens, statements,
             if depth <= 1 then Normal else BlockComment(depth - 1), tokens);
    }
  }

  lemma BlockOther(sql: string, start: nat, i: nat, depth: nat, tokens: seq<Token>, statements: seq<Statement>)
    requires start <= i < |sql|
    requires i + 1 < |sql| ==> !(sql[i] == '/' && sql[i + 1] == '*') && !(sql[i] == '*' && sql[i + 1] == '/')
    ensures Ahead(BlockComment(depth), sql, start, i, tokens, statements)
         == Ahead(BlockComment(depth), sql, start, i + 1, tokens, statements)
  {
    var next := InBlock(depth, sql[i]);
    Onward(BlockComment(depth), sql, start, i, tokens, statements, next, tokens);
    Same(next, BlockComment(depth), sql, start, i + 1, tokens, tokens, statements);
  }

  /** At the end of the text an open comment, string or identifier is an error. */
  lemma AheadAtEnd(mode: Mode, sql: string, start: nat, tokens: seq<Token>, statements: seq<Statement>)
    requires start <= |sql|
    ensures Ahead(mode, sql, start, |sql|, tokens, statements) == Finish(Reading(mode, sql[start..], tokens, statements))
  {
    assert sql[start..] == sql[start..|sql|] && sql[|sql|..] == "";
  }

  method SkipBlockComment(sql: string, start: nat, from: nat, ghost tokens: seq<Token>, ghost statements: seq<Statement>)
    returns (r: Result<nat, LexError>)
    requires start <= from <= |sql|
    ensures r.Ok? ==> from <= r.value <= |sql|
    ensures r.Ok? ==>
      Ahead(BlockComment(1), sql, start, from, tokens, statements) == Ahead(Normal, sql, start, r.value, tokens, statements)
    ensures r.Err? ==> Ahead(BlockComment(1), sql, start, from, tokens, statements) == Err(r.error)
  {
    hide Ahead;
    var depth: nat := 1;
    var index := from;
    while index < |sql| && depth > 0
      invariant from <= index <= |sql|
      invariant Ahead(BlockComment(1), sql, start, from, tokens, statements)
             == Ahead(if depth == 0 then Normal else BlockComment(depth), sql, start, index, tokens, statements)
      decreases |sql| - index
    {
      if index + 1 < |sql| && sql[index] == '/' && sql[index + 1] == '*' {
        BlockMark(sql, start, index, depth, tokens, statements);
        depth := depth + 1;
        index := index + 2;
      } else if index + 1 < |sql| && sql[index] == '*' && sql[index + 1] == '/' {
        BlockMark(sql, start, index, depth, tokens, statements);
        depth := depth - 1;
        index := index + 2;
      } else {
        BlockOther(sql, start, index, depth, tokens, statements);
        index := index + 1;
      }
    }
    if depth > 0 {
      AheadAtEnd(BlockComment(depth), sql, start, tokens, statements);
      return Err(UnterminatedComment);
    }
    return Ok(index);
  }

  /** A backslash in an escape string takes the next character with it. */
  lemma EscapedPair(sql: string, start: nat, i: nat, tokens: seq<Token>, statements: seq<Statement>)
    requires start <= i < |sql| && sql[i] == '\\'
    ensures i + 1 < |sql| ==>
      Ahead(Quoted(true), sql, start, i, tokens, statements) == Ahead(Quoted(true), sql, start, i + 2, tokens, statements)
    ensures i + 1 == |sql| ==> Ahead(Quoted(true), sql, start, i, tokens, statements) == Err(UnterminatedEscapeString)
  {
    Onward(Quoted(true), sql, start, i, tokens, statements, QuotedBackslash(true), tokens);
    if i + 1 < |sql| {
      Onward(QuotedBackslash(true), sql, start, i + 1, tokens, statements, Quoted(true), tokens);
    } else {
      AheadAtEnd(QuotedBackslash(true), sql, start, tokens, statements);
    }
  }

  lemma BackslashQuote(sql: string, start: nat, i: nat, tokens: seq<Token>, statements: seq<Statement>)
    requires start <= i && i + 1 < |sql| && sql[i] == '\\' && sql[i + 1] == '\''
    ensures Ahead(Quoted(false), sql, start, i, tokens, statements) == Err(AmbiguousBackslashQuote)
  {
    Onward(Quoted(false), sql, start, i, tokens, statements, QuotedBackslash(false), tokens);
    RunOne(Reading(QuotedBackslash(false), sql[start..i + 1], tokens, statements), sql, i + 1);
    RunRejected(Rejected(AmbiguousBackslashQuote), sql[i + 2..]);
  }

  lemma ClosingQuote(sql: string, start: nat, i: nat, escape: bool, tokens: seq<Token>, statements: seq<Statement>)
    requires start <= i < |sql| && sql[i] == '\''
    ensures Ahead(Quoted(escape), sql, start, i, tokens, statements)
         == if i + 1 < |sql| && sql[i + 1] == '\'' then Ahead(Quoted(escape), sql, start, i + 2, tokens, statements)
            else Ahead(Normal, sql, start, i + 1, tokens, statements)
  {
    Onward(Quoted(escape), sql, start, i, tokens, statements, QuotedQuote(escape), tokens);
    if i + 1 < |sql| && sql[i + 1] == '\'' {
      Onward(QuotedQuote(escape), sql, start, i + 1, tokens, statements, Quoted(escape), tokens);
    } else {
      Same(QuotedQuote(escape), Normal, sql, start, i + 1, tokens, tokens, statements);
    }
  }

  lemma QuotedOther(sql: string, start: nat, i: nat, escape: bool, tokens: seq<Token>, statements: seq<Statement>)
    requires start <= i < |sql| && sql[i] != '\''
    requires sql[i] == '\\' ==> !escape && (i + 1 < |sql| ==> sql[i + 1] != '\'')
    ensures Ahead(Quoted(escape), sql, start, i, tokens, statements)
         == Ahead(Quoted(escape), sql, start, i + 1, tokens, statements)
  {
    var next := InQuotes(escape, sql[i]);
    Onward(Quoted(escape), sql, start, i, tokens, statements, next, tokens);
    Same(next, Quoted(escape), sql, start, i + 1, tokens, tokens, statements);
  }

  method SkipQuoted(sql: string, start: nat, from: nat, escape: bool, ghost tokens: seq<Token>, ghost statements: seq<Statement>)
    returns (r: Result<nat, LexError>)
    requires start <= from <= |sql|
    ensures r.Ok? ==> from <= r.value <= |sql|
    ensures r.Ok? ==>
      Ahead(Quoted(escape), sql, start, from, tokens, statements) == Ahead(Normal, sql, start, r.value, tokens, statements)
    ensures r.Err? ==> Ahead(Quoted(escape), sql, start, from, tokens, statements) == Err(r.error)
  {
    hide Ahead;
    var index := from;
    while index < |sql|
      invariant from <= index <= |sql|
      invariant Ahead(Quoted(escape), sql, start, from, tokens, statements)
             == Ahead(Quoted(escape), sql, start, index, tokens, statements)
    {
      if escape && sql[index] == '\\' {
        EscapedPair(sql, start, index, tokens, statements);
        if index + 1 >= |sql| { return Err(UnterminatedEscapeString); }
        index := index + 2;
      } else if !escape && sql[index] == '\\' && index + 1 < |sql| && sql[index + 1] == '\'' {
        BackslashQuote(sql, start, index, tokens, statements);
        return Err(AmbiguousBackslashQuote);
      } else if sql[index] == '\'' {
        ClosingQuote(sql, start, index, escape, tokens, statements);
        if index + 1 < |sql| && sql[index + 1] == '\'' {
          index := index + 2;
        } else {
          return Ok(index + 1);
        }
      } else {
        QuotedOther(sql, start, index, escape, tokens, statements);
        index := index + 1;
      }
    }
    AheadAtEnd(Quoted(escape), sql, start, tokens, statements);
    return Err(UnterminatedString);
  }

  lemma IdentifierChar(sql: string, start: nat, i: nat, tokens: seq<Token>, statements: seq<Statement>)
    requires start <= i < |sql|
    ensures Ahead(Identifier, sql, start, i, tokens, statements)
         == if sql[i] != '"' then Ahead(Identifier, sql, start, i + 1, tokens, statements)
            else if i + 1 < |sql| && sql[i + 1] == '"' then Ahead(Identifier, sql, start, i + 2, tokens, statements)
            else Ahead(Normal, sql, start, i + 1, tokens, statements)
  {
    hide Ahead;
    Onward(Identifier, sql, start, i, tokens, statements, if sql[i] == '"' then IdentifierQuote else Identifier, tokens);
    if sql[i] == '"' {
      if i + 1 < |sql| && sql[i + 1] == '"' {
        Onward(IdentifierQuote, sql, start, i + 1, tokens, statements, Identifier, tokens);
      } else {
        Same(IdentifierQuote, Normal, sql, start, i + 1, tokens, tokens, statements);
      }
    }
  }

  method SkipIdentifier(sql: string, start: nat, from: nat, ghost tokens: seq<Token>, ghost statements: seq<Statement>)
    returns (r: Result<nat, LexError>)
    requires start <= from <= |sql|
    ensures r.Ok? ==> from <= r.value <= |sql|
    ensures r.Ok? ==>
      Ahead(Identifier, sql, start, from, tokens, statements) == Ahead(Normal, sql, start, r.value, tokens, statements)
    ensures r.Err? ==> Ahead(Identifier, sql, start, from, tokens, statements) == Err(r.error)
  {
    hide Ahead;
    var index := from;
    while index < |sql|
      invariant from <= index <= |sql|
      invariant Ahead(Identifier, sql, start, from, tokens, statements)
             == Ahead(Identifier, sql, start, index, tokens, statements)
    {
      IdentifierChar(sql, start, index, tokens, statements);
      if sql[index] == '"' {
        if index + 1 < |sql| && sql[index + 1] == '"' {
          index := index + 2;
        } else {
          return Ok(index + 1);
        }
      } else {
        index := index + 1;
      }
    }
    AheadAtEnd(Identifier, sql, start, tokens, statements);
    return Err(UnterminatedQuotedIdentifier);
  }

  /** The tag of `\$(?:[A-Za-z_][A-Za-z0-9_]*)?\$` may go on with this character. */
  predicate TagGoesOn(sql: string, from: nat, i: nat) {
    i < |sql| && (IsNameStart(sql[i]) || (i > from && IsNameChar(sql[i])))
  }

  /** What the characters of a would-be tag are if no second dollar sign follows. */
  function Plain(tag: string): Mode {
    if tag == "" then Normal else Word(tag)
  }

  lemma TagChar(sql: string, start: nat, from: nat, i: nat, tokens: seq<Token>, statements: seq<Statement>)
    requires start <= from <= i && TagGoesOn(sql, from, i)
    ensures Ahead(DollarTag(sql[from..i]), sql, start, i, tokens, statements)
         == Ahead(DollarTag(sql[from..i + 1]), sql, start, i + 1, tokens, statements)
    ensures Ahead(Plain(sql[from..i]), sql, start, i, tokens, statements)
         == Ahead(Plain(sql[from..i + 1]), sql, start, i + 1, tokens, statements)
  {
    hide Ahead;
    var tag := sql[from..i];
    assert tag + [sql[i]] == sql[from..i + 1];
    if tag == "" { assert sql[from..i + 1] == [sql[i]]; }
    Onward(DollarTag(tag), sql, start, i, tokens, statements, DollarTag(sql[from..i + 1]), tokens);
    Onward(Plain(tag), sql, start, i, tokens, statements, Word(sql[from..i + 1]), tokens);
  }

  lemma TagText(sql: string, from: nat, i: nat)
    requires 0 < from <= i < |sql| && sql[from - 1] == '$' && sql[i] == '$'
    ensures sql[from - 1..i + 1] == "$" + sql[from..i] + "$"
  {}

  lemma TagEnds(sql: string, start: nat, from: nat, i: nat, tokens: seq<Token>, statements: seq<Statement>)
    requires start < from <= i <= |sql| && sql[from - 1] == '$' && !TagGoesOn(sql, from, i)
    ensures Ahead(DollarTag(sql[from..i]), sql, start, i, tokens, statements)
         == if i < |sql| && sql[i] == '$'
            then Ahead(DollarBody(sql[from - 1..i + 1], ""), sql, start, i + 1, tokens + [DOLLAR_QUOTE], statements)
            else Ahead(Plain(sql[from..i]), sql, start, i, tokens, statements)
  {
    hide Ahead;
    var tag := sql[from..i];
    if i < |sql| && sql[i] == '$' {
      TagText(sql, from, i);
      Onward(DollarTag(tag), sql, start, i, tokens, statements,
             DollarBody(sql[from - 1..i + 1], ""), tokens + [DOLLAR_QUOTE]);
    } else {
      assert tokens + [] == tokens;
      Same(DollarTag(tag), Plain(tag), sql, start, i, tokens, tokens, statements);
    }
  }

  /** The index after the second dollar sign of a dollar quote, or none: then the first one means nothing and
      what follows it is lexed by itself. */
  method MatchDollarQuote(sql: string, start: nat, from: nat, ghost tokens: seq<Token>, ghost statements: seq<Statement>)
    returns (end: int)
    requires start < from <= |sql| && sql[from - 1] == '$'
    ensures end < 0 ==>
      Ahead(DollarTag(""), sql, start, from, tokens, statements) == Ahead(Normal, sql, start, from, tokens, statements)
    ensures end >= 0 ==> from < end <= |sql|
    ensures end >= 0 ==>
      Ahead(DollarTag(""), sql, start, from, tokens, statements)
      == Ahead(DollarBody(sql[from - 1..end], ""), sql, start, end, tokens + [DOLLAR_QUOTE], statements)
  {
    hide Ahead;
    var index := from;
    assert sql[from..index] == "";
    while TagGoesOn(sql, from, index)
      invariant from <= index <= |sql|
      invariant Ahead(DollarTag(""), sql, start, from, tokens, statements)
             == Ahead(DollarTag(sql[from..index]), sql, start, index, tokens, statements)
      invariant Ahead(Normal, sql, start, from, tokens, statements)
             == Ahead(Plain(sql[from..index]), sql, start, index, tokens, statements)
      decreases |sql| - index
    {
      TagChar(sql, start, from, index, tokens, statements);
      index := index + 1;
    }
    TagEnds(sql, start, from, index, tokens, statements);
    return if index < |sql| && sql[index] == '$' then index + 1 else -1;
  }

  /** No prefix of a body ends with the delimiter before its first occurrence is complete. */
  lemma NotYetClosed(sql: string, delimiter: string, from: nat, k: nat)
    requires from <= k <= |sql|
    requires from + |delimiter| <= k ==> !StartsAt(sql, delimiter, k - |delimiter|)
    ensures !EndsWith("" + sql[from..k], delimiter)
  {
    assert "" + sql[from..k] == sql[from..k];
    if from + |delimiter| <= k {
      assert sql[from..k][k - from - |delimiter|..] == sql[k - |delimiter|..k];
    }
  }

  lemma BodyCloses(sql: string, start: nat, from: nat, closing: nat, delimiter: string, tokens: seq<Token>, statements: seq<Statement>)
    requires start <= from <= closing && delimiter != "" && StartsAt(sql, delimiter, closing)
    ensures
      var last := closing + |delimiter| - 1;
      Ahead(DollarBody(delimiter, "" + sql[from..last]), sql, start, last, tokens, statements)
      == Ahead(Normal, sql, start, last + 1, tokens, statements)
  {
    hide Ahead;
    var last := closing + |delimiter| - 1;
    var seen := "" + sql[from..last];
    assert seen + [sql[last]] == sql[from..last + 1];
    assert sql[from..last + 1][closing - from..] == sql[closing..last + 1];
    Onward(DollarBody(delimiter, seen), sql, start, last, tokens, statements, Normal, tokens);
  }

  method SkipDollarBody(sql: string, start: nat, from: nat, delimiter: string, ghost tokens: seq<Token>, ghost statements: seq<Statement>)
    returns (r: Result<nat, LexError>)
    requires start <= from <= |sql| && delimiter != ""
    ensures r.Ok? ==> from <= r.value <= |sql|
    ensures r.Ok? ==>
      Ahead(DollarBody(delimiter, ""), sql, start, from, tokens, statements) == Ahead(Normal, sql, start, r.value, tokens, statements)
    ensures r.Err? ==> Ahead(DollarBody(delimiter, ""), sql, start, from, tokens, statements) == Err(r.error)
  {
    hide Ahead;
    var closing := Find(sql, delimiter, from);
    ghost var last := if closing < 0 then |sql| else closing + |delimiter| - 1;
    forall k | from < k <= last ensures !EndsWith("" + sql[from..k], delimiter) {
      NotYetClosed(sql, delimiter, from, k);
    }
    AheadStays(DollarBody(delimiter, ""), sql, start, from, last, tokens, statements);
    if closing < 0 {
      AheadAtEnd(DollarBody(delimiter, "" + sql[from..last]), sql, start, tokens, statements);
      return Err(UnterminatedDollarQuote);
    }
    BodyCloses(sql, start, from, closing, delimiter, tokens, statements);
    return Ok(closing + |delimiter|);
  }

  lemma WordScanned(sql: string, start: nat, from: nat, end: nat, tokens: seq<Token>, statements: seq<Statement>)
    requires start <= from < end <= |sql| && IsNameStart(sql[from])
    requires forall k :: from < k < end ==> IsWordChar(sql[k])
    requires end < |sql| ==> !IsWordChar(sql[end])
    ensures Ahead(Normal, sql, start, from, tokens, statements)
         == Ahead(Normal, sql, start, end, tokens + [Casefold(sql[from..end])], statements)
  {
    Onward(Normal, sql, start, from, tokens, statements, Word([sql[from]]), tokens);
    AheadStays(Word([sql[from]]), sql, start, from + 1, end, tokens, statements);
    assert [sql[from]] + sql[from + 1..end] == sql[from..end];
    Same(Word(sql[from..end]), Normal, sql, start, end, tokens, tokens + [Casefold(sql[from..end])], statements);
  }

  method ScanWord(sql: string, from: nat) returns (end: nat)
    requires from < |sql|
    ensures from < end <= |sql|
    ensures forall k :: from < k < end ==> IsWordChar(sql[k])
    ensures end < |sql| ==> !IsWordChar(sql[end])
  {
    end := from + 1;
    while end < |sql| && IsWordChar(sql[end])
      invariant from < end <= |sql|
      invariant forall k :: from < k < end ==> IsWordChar(sql[k])
    {
      end := end + 1;
    }
  }

  lemma Semicolon(sql: string, start: nat, i: nat, tokens: seq<Token>, statements: seq<Statement>)
    requires start <= i < |sql| && sql[i] == ';'
    ensures Ahead(Normal, sql, start, i, tokens, statements)
         == Ahead(Normal, sql, i + 1, i + 1, [], Split(sql[start..i + 1], tokens, statements))
  {
    assert sql[start..i] + [sql[i]] == sql[start..i + 1];
    assert sql[i + 1..i + 1] == "";
    RunOne(Reading(Normal, sql[start..i], tokens, statements), sql, i);
  }

  lemma Ignored(sql: string, start: nat, i: nat, tokens: seq<Token>, statements: seq<Statement>)
    requires start <= i < |sql| && sql[i] !in ";'\"$" && !IsNameStart(sql[i])
    requires i + 1 < |sql| ==> !(sql[i] == '-' && sql[i + 1] == '-') && !(sql[i] == '/' && sql[i + 1] == '*')
    ensures Ahead(Normal, sql, start, i, tokens, statements) == Ahead(Normal, sql, start, i + 1, tokens, statements)
  {
    var next := Opened(sql[start..i], sql[i]);
    Onward(Normal, sql, start, i, tokens, statements, next, tokens);
    Same(next, Normal, sql, start, i + 1, tokens, tokens, statements);
  }

  lemma LineCommentOpens(sql: string, start: nat, i: nat, tokens: seq<Token>, statements: seq<Statement>)
    requires start <= i && i + 1 < |sql| && sql[i] == '-' && sql[i + 1] == '-'
    ensures Ahead(Normal, sql, start, i, tokens, statements) == Ahead(LineComment, sql, start, i + 2, tokens, statements)
  {
    hide Ahead, Run, Casefold, EndsWith, EscapeOpens;
    Onward(Normal, sql, start, i, tokens, statements, Dash, tokens);
    Onward(Dash, sql, start, i + 1, tokens, statements, LineComment, tokens);
  }

  lemma BlockCommentOpens(sql: string, start: nat, i: nat, tokens: seq<Token>, statements: seq<Statement>)
    requires start <= i && i + 1 < |sql| && sql[i] == '/' && sql[i + 1] == '*'
    ensures Ahead(Normal, sql, start, i, tokens, statements) == Ahead(BlockComment(1), sql, start, i + 2, tokens, statements)
  {
    hide Ahead, Run, Casefold, EndsWith, EscapeOpens;
    Onward(Normal, sql, start, i, tokens, statements, Slash, tokens);
    Onward(Slash, sql, start, i + 1, tokens, statements, BlockComment(1), tokens);
  }

  /** The loop looks back in the whole text; a semicolon before the statement is as good as its beginning. */
  predicate LooksBack(sql: string, i: nat)
    requires i < |sql|
  {
    i > 0 && sql[i - 1] in "eE" && (i == 1 || !IsWordChar(sql[i - 2]))
  }

  lemma LookBack(sql: string, start: nat, i: nat)
    requires start <= i < |sql| && (start > 0 ==> sql[start - 1] == ';')
    ensures LooksBack(sql, i) == EscapeOpens(sql[start..i])
  {
    var raw := sql[start..i];
    if raw != "" { assert raw[|raw| - 1] == sql[i - 1]; }
    if |raw| > 1 { assert raw[|raw| - 2] == sql[i - 2]; }
  }

  lemma StringOpens(sql: string, start: nat, i: nat, tokens: seq<Token>, statements: seq<Statement>)
    requires start <= i < |sql| && (start > 0 ==> sql[start - 1] == ';') && sql[i] == '\''
    ensures Ahead(Normal, sql, start, i, tokens, statements)
         == Ahead(Quoted(LooksBack(sql, i)), sql, start, i + 1, tokens, statements)
  {
    hide Ahead, Run, Casefold, EndsWith;
    LookBack(sql, start, i);
    Onward(Normal, sql, start, i, tokens, statements, Quoted(LooksBack(sql, i)), tokens);
  }

  lemma IdentifierOpens(sql: string, start: nat, i: nat, tokens: seq<Token>, statements: seq<Statement>)
    requires start <= i < |sql| && sql[i] == '"'
    ensures Ahead(Normal, sql, start, i, tokens, statements)
         == Ahead(Identifier, sql, start, i + 1, tokens + [QUOTED_IDENTIFIER], statements)
  {
    hide Ahead, Run, Casefold, EndsWith, EscapeOpens;
    Onward(Normal, sql, start, i, tokens, statements, Identifier, tokens + [QUOTED_IDENTIFIER]);
  }

  lemma DollarOpens(sql: string, start: nat, i: nat, tokens: seq<Token>, statements: seq<Statement>)
    requires start <= i < |sql| && sql[i] == '$'
    ensures Ahead(Normal, sql, start, i, tokens, statements) == Ahead(DollarTag(""), sql, start, i + 1, tokens, statements)
  {
    hide Ahead, Run, Casefold, EndsWith, EscapeOpens;
    Onward(Normal, sql, start, i, tokens, statements, DollarTag(""), tokens);
  }

  /** Split SQL on real top-level semicolons, jumping over comments, strings and quoted bodies: exactly the
      statements, tokens and rejections of the automaton. */
  method TopLevelStatements(sql: string) returns (r: Lexed)
    ensures r == Lex(sql)
  {
    hide Ahead, Lex, Run, Step, Casefold, Strip, Opened, EscapeOpens, LooksBack, Finish;
    var statements: seq<Statement> := [];
    var tokens: seq<Token> := [];
    var start := 0;
    var index := 0;
    AheadStarts(sql);
    while index < |sql|
      invariant start <= index <= |sql|
      invariant start > 0 ==> sql[start - 1] == ';'
      invariant Lex(sql) == Ahead(Normal, sql, start, index, tokens, statements)
      decreases |sql| - index
    {
      var c := sql[index];
      if IsSpace(c) {
        Ignored(sql, start, index, tokens, statements);
        index := index + 1;
      } else if index + 1 < |sql| && c == '-' && sql[index + 1] == '-' {
        LineCommentOpens(sql, start, index, tokens, statements);
        index := SkipLineComment(sql, start, index + 2, tokens, statements);
      } else if index + 1 < |sql| && c == '/' && sql[index + 1] == '*' {
        BlockCommentOpens(sql, start, index, tokens, statements);
        var skipped := SkipBlockComment(sql, start, index + 2, tokens, statements);
        if skipped.Err? { return Err(skipped.error); }
        index := skipped.value;
      } else if c == '\'' {
        StringOpens(sql, start, index, tokens, statements);
        var skipped := SkipQuoted(sql, start, index + 1, LooksBack(sql, index), tokens, statements);
        if skipped.Err? { return Err(skipped.error); }
        index := skipped.value;
      } else if c == '"' {
        IdentifierOpens(sql, start, index, tokens, statements);
        tokens := tokens + [QUOTED_IDENTIFIER];
        var skipped := SkipIdentifier(sql, start, index + 1, tokens, statements);
        if skipped.Err? { return Err(skipped.error); }
        index := skipped.value;
      } else if c == '$' {
        DollarOpens(sql, start, index, tokens, statements);
        var end := MatchDollarQuote(sql, start, index + 1, tokens, statements);
        if end >= 0 {
          tokens := tokens + [DOLLAR_QUOTE];
          var skipped := SkipDollarBody(sql, start, end, sql[index..end], tokens, statements);
          if skipped.Err? { return Err(skipped.error); }
          index := skipped.value;
        } else {
          index := index + 1;
        }
      } else if IsNameStart(c) {
        var end := ScanWord(sql, index);
        WordScanned(sql, start, index, end, tokens, statements);
        tokens := tokens + [Casefold(sql[index..end])];
        index := end;
      } else if c == ';' {
        Semicolon(sql, start, index, tokens, statements);
        if tokens != [] {
          statements := statements + [Statement(Strip(sql[start..index + 1]), tokens)];
        }
        tokens := [];
        start := index + 1;
        index := index + 1;
      } else {
        Ignored(sql, start, index, tokens, statements);
        index := index + 1;
      }
    }
    AheadAtEnd(Normal, sql, start, tokens, statements);
    NormalFinishes(sql[start..], tokens, statements);
    if tokens != [] {
      statements := statements + [Statement(Strip(sql[start..]), tokens)];
    }
    return Ok(statements);
  }

  lemma NormalFinishes(raw: string, tokens: seq<Token>, statements: seq<Statement>)
    ensures Finish(Reading(Normal, raw, tokens, statements)) == Ok(Split(raw, tokens, statements))
  {}

  lemma AheadStarts(sql: string)
    ensures Lex(sql) == Ahead(Normal, sql, 0, 0, [], [])
  {
    assert sql[0..0] == "" && sql[0..] == sql;
  }
}
