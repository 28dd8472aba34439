/** The one answer projection over the question catalog that a private grading transaction may contain. */
module CatalogProjection {
  import Text

  type Tokens = seq<string>

  const PREFIX: Tokens := ["select", "q", "code", "case", "q", "code"]
  const SUFFIX: Tokens :=
    ["else", "jsonb", "end", "from", "content_factory", "training_questions", "q", "where", "q", "module_code"]
  const BRANCH: Tokens := ["when", "then", "jsonb_build_array"]
  const OPTION: Tokens := ["q", "options"]
  const CASES := 12

  /** The tokens of an array of `n` options of the question. */
  function Options(n: nat): Tokens {
    if n == 0 then [] else OPTION + Options(n - 1)
  }

  /** One branch of the `case` for each count. */
  function Branches(counts: seq<nat>): Tokens {
    if counts == [] then [] else BRANCH + Options(counts[0]) + Branches(counts[1..])
  }

  predicate AllPositive(counts: seq<nat>) {
    forall i :: 0 <= i < |counts| ==> counts[i] >= 1
  }

  ghost predicate IsProjection(tokens: Tokens, counts: seq<nat>) {
    |counts| == CASES && AllPositive(counts) && tokens == PREFIX + (Branches(counts) + SUFFIX)
  }

  /** What is left are `n` branches and the suffix. */
  ghost predicate Completes(rest: Tokens, n: int) {
    exists counts :: CompletesWith(rest, n, counts)
  }

  ghost predicate CompletesWith(rest: Tokens, n: int, counts: seq<nat>) {
    |counts| == n && AllPositive(counts) && rest == Branches(counts) + SUFFIX
  }

  /** Python's `tokens[i : i + len(part)] == part`. */
  predicate At(tokens: Tokens, i: nat, part: Tokens) {
    i + |part| <= |tokens| && tokens[i..i + |part|] == part
  }

  // ---------------------------------------------------------------------------------------------
  // The grammar is deterministic
  // ---------------------------------------------------------------------------------------------

  /** A text that goes on with something other than an option. */
  predicate NoOption(rest: Tokens) {
    !(OPTION <= rest)
  }

  /** The number of options in front is determined by the text. */
  lemma {:induction false} OptionsUnique(m: nat, a: Tokens, n: nat, b: Tokens)
    requires Options(m) + a == Options(n) + b && NoOption(a) && NoOption(b)
    ensures m == n && a == b
  {
    OptionsThen(m, a);
    OptionsThen(n, b);
    if m > 0 && n > 0 {
      Text.Cancel(OPTION, Options(m - 1) + a, Options(n - 1) + b);
      OptionsUnique(m - 1, a, n - 1, b);
    }
  }

  lemma OptionsThen(n: nat, a: Tokens)
    ensures n == 0 ==> Options(n) + a == a
    ensures n > 0 ==> Options(n) + a == OPTION + (Options(n - 1) + a) && !NoOption(Options(n) + a)
  {}

  lemma BranchesStart(counts: seq<nat>)
    ensures
      var rest := Branches(counts) + SUFFIX;
      rest[0] == (if counts == [] then "else" else "when") && NoOption(rest)
  {
    hide Options;
    if counts != [] { BranchesFirst(counts); }
  }

  lemma BranchesFirst(counts: seq<nat>)
    requires counts != []
    ensures Branches(counts) + SUFFIX == BRANCH + (Options(counts[0]) + (Branches(counts[1..]) + SUFFIX))
  {
    Regroup(BRANCH, Options(counts[0]), Branches(counts[1..]), SUFFIX);
  }

  lemma Regroup(a: Tokens, b: Tokens, c: Tokens, d: Tokens)
    ensures ((a + b) + c) + d == a + (b + (c + d))
  {}

  /** Reading off one branch. */
  lemma OneBranch(rest: Tokens, q: nat, tail: Tokens, n: int)
    requires rest == BRANCH + (Options(q) + tail) && q >= 1 && NoOption(tail)
    ensures Completes(rest, n) <==> Completes(tail, n - 1)
  {
    if Completes(rest, n) {
      var counts :| CompletesWith(rest, n, counts);
      BranchRead(rest, q, tail, n, counts);
    }
    if Completes(tail, n - 1) {
      var counts :| CompletesWith(tail, n - 1, counts);
      BranchesFirst([q] + counts);
      assert ([q] + counts)[1..] == counts;
      assert CompletesWith(rest, n, [q] + counts);
    }
  }

  lemma BranchRead(rest: Tokens, q: nat, tail: Tokens, n: int, counts: seq<nat>)
    requires rest == BRANCH + (Options(q) + tail) && NoOption(tail) && CompletesWith(rest, n, counts)
    ensures counts != [] && counts[0] == q && CompletesWith(tail, n - 1, counts[1..])
  {
    BranchesStart(counts);
    assert rest[0] == BRANCH[0];
    if counts != [] {
      BranchesFirst(counts);
      BranchesStart(counts[1..]);
      Text.Cancel(BRANCH, Options(q) + tail, Options(counts[0]) + (Branches(counts[1..]) + SUFFIX));
      OptionsUnique(q, tail, counts[0], Branches(counts[1..]) + SUFFIX);
    }
  }

  /** What is longer than the suffix starts with a branch of at least one option. */
  lemma LongerStarts(rest: Tokens, n: int, counts: seq<nat>)
    requires CompletesWith(rest, n, counts) && |rest| > |SUFFIX|
    ensures BRANCH <= rest && !NoOption(rest[|BRANCH|..])
  {
    BranchesFirst(counts);
    var tail := Branches(counts[1..]) + SUFFIX;
    OptionsThen(counts[0], tail);
    assert rest[|BRANCH|..] == Options(counts[0]) + tail;
  }

  lemma AtEnd(rest: Tokens, n: int)
    requires rest == SUFFIX
    ensures Completes(rest, n) <==> n == 0
  {
    if Completes(rest, n) {
      var counts :| CompletesWith(rest, n, counts);
      if counts != [] { BranchesFirst(counts); }
    }
    if n == 0 { assert CompletesWith(rest, 0, []); }
  }

  /** The twelve counts of an approved projection are determined by its tokens. */
  lemma CountsUnique(tokens: Tokens, a: seq<nat>, b: seq<nat>)
    requires IsProjection(tokens, a) && IsProjection(tokens, b)
    ensures a == b
  {
    Text.Cancel(PREFIX, Branches(a) + SUFFIX, Branches(b) + SUFFIX);
    BranchesUnique(Branches(a) + SUFFIX, CASES, a, b);
  }

  lemma {:induction false} BranchesUnique(rest: Tokens, n: nat, a: seq<nat>, b: seq<nat>)
    requires CompletesWith(rest, n, a) && CompletesWith(rest, n, b)
    ensures a == b
    decreases n
  {
    if n > 0 {
      BranchesFirst(a);
      BranchesStart(a[1..]);
      var tail := Branches(a[1..]) + SUFFIX;
      BranchRead(rest, a[0], tail, n, b);
      BranchesUnique(tail, n - 1, a[1..], b[1..]);
      assert a == [a[0]] + a[1..] && b == [b[0]] + b[1..];
    }
  }

  // ---------------------------------------------------------------------------------------------
  // The cursor
  // ---------------------------------------------------------------------------------------------

  /** The cursor passes over all the options in front of it. */
  method SkipOptions(tokens: Tokens, start: nat) returns (cursor: nat, count: nat)
    requires start <= |tokens|
    ensures start <= cursor <= |tokens|
    ensures tokens[start..] == Options(count) + tokens[cursor..]
    ensures NoOption(tokens[cursor..])
  {
    cursor, count := start, 0;
    while At(tokens, cursor, OPTION)
      invariant start <= cursor <= |tokens|
      invariant tokens[start..] == Options(count) + tokens[cursor..]
      decreases |tokens| - cursor
    {
      OneOption(tokens, start, cursor, count);
      cursor := cursor + 2;
      count := count + 1;
    }
  }

  lemma OneOption(tokens: Tokens, start: nat, cursor: nat, count: nat)
    requires start <= cursor && At(tokens, cursor, OPTION)
    requires tokens[start..] == Options(count) + tokens[cursor..]
    ensures tokens[start..] == Options(count + 1) + tokens[cursor + 2..]
  {
    assert tokens[cursor..] == OPTION + tokens[cursor + 2..];
    OptionLast(count);
    assert Options(count) + (OPTION + tokens[cursor + 2..]) == (Options(count) + OPTION) + tokens[cursor + 2..];
  }

  lemma {:induction false} OptionLast(n: nat)
    ensures Options(n) + OPTION == Options(n + 1)
  {
    if n > 0 {
      OptionLast(n - 1);
      assert Options(n) + OPTION == OPTION + (Options(n - 1) + OPTION);
    }
  }

  /** The cursor stops at the suffix or before it, since the suffix holds nothing that it passes over. */
  lemma StopsBeforeSuffix(tokens: Tokens, start: nat, q: nat, cursor: nat, limit: nat)
    requires start <= cursor <= |tokens| && limit + |SUFFIX| == |tokens| && tokens[limit..] == SUFFIX && start <= limit
    requires tokens[start..] == Options(q) + tokens[cursor..]
    ensures cursor <= limit
  {
    assert tokens[limit] == tokens[limit..][0] == "else";
    OptionsOnly(q);
    assert |Options(q)| == cursor - start;
    assert forall i :: start <= i < cursor ==> tokens[i] == tokens[start..][i - start] == Options(q)[i - start];
  }

  lemma {:induction false} OptionsOnly(q: nat)
    ensures forall i :: 0 <= i < |Options(q)| ==> Options(q)[i] in OPTION
  {
    if q > 0 { OptionsOnly(q - 1); }
  }

  /** Accepts exactly the projections: the prefix, twelve branches of at least one option each, the suffix. */
  method IsApprovedCatalogCaseSelect(tokens: Tokens) returns (approved: bool)
    ensures approved <==> exists counts :: IsProjection(tokens, counts)
  {
    if |tokens| <= |PREFIX| + |SUFFIX| || tokens[..|PREFIX|] != PREFIX || tokens[|tokens| - |SUFFIX|..] != SUFFIX {
      NotEnclosed(tokens);
      return false;
    }
    EnclosedCompletes(tokens);
    hide Completes, IsProjection, Options, Branches;
    var cursor, limit := |PREFIX|, |tokens| - |SUFFIX|;
    var cases := 0;
    while cursor < limit
      invariant |PREFIX| <= cursor <= limit
      invariant Completes(tokens[|PREFIX|..], CASES) <==> Completes(tokens[cursor..], CASES - cases)
    {
      if !At(tokens, cursor, BRANCH) {
        NoBranch(tokens, cursor, CASES - cases);
        return false;
      }
      BranchBeforeSuffix(tokens, cursor, limit);
      var start, count := cursor + |BRANCH|, 0;
      ghost var branch := cursor;
      cursor, count := SkipOptions(tokens, start);
      StopsBeforeSuffix(tokens, start, count, cursor, limit);
      if count < 1 {
        NoOptions(tokens, branch, CASES - cases);
        return false;
      }
      assert tokens[branch..] == BRANCH + tokens[start..];
      OneBranch(tokens[branch..], count, tokens[cursor..], CASES - cases);
      cases := cases + 1;
    }
    AtEnd(tokens[cursor..], CASES - cases);
    return cursor == limit && cases == CASES;
  }

  lemma NotEnclosed(tokens: Tokens)
    requires |tokens| <= |PREFIX| + |SUFFIX| || tokens[..|PREFIX|] != PREFIX || tokens[|tokens| - |SUFFIX|..] != SUFFIX
    ensures forall counts :: !IsProjection(tokens, counts)
  {
    hide Options;
    forall counts ensures !IsProjection(tokens, counts) {
      if IsProjection(tokens, counts) { Enclosed(tokens, counts); }
    }
  }

  lemma Enclosed(tokens: Tokens, counts: seq<nat>)
    requires IsProjection(tokens, counts)
    ensures |tokens| > |PREFIX| + |SUFFIX|
    ensures tokens[..|PREFIX|] == PREFIX && tokens[|tokens| - |SUFFIX|..] == SUFFIX
  {
    hide Options;
    assert Branches(counts) == BRANCH + Options(counts[0]) + Branches(counts[1..]);
    hide Branches;
    assert tokens == (PREFIX + Branches(counts)) + SUFFIX;
  }

  lemma EnclosedCompletes(tokens: Tokens)
    requires |PREFIX| <= |tokens| && tokens[..|PREFIX|] == PREFIX
    ensures (exists counts :: IsProjection(tokens, counts)) <==> Completes(tokens[|PREFIX|..], CASES)
  {
    var rest := tokens[|PREFIX|..];
    assert tokens == PREFIX + rest;
    forall counts ensures IsProjection(tokens, counts) <==> CompletesWith(rest, CASES, counts) {
      if IsProjection(tokens, counts) { Text.Cancel(PREFIX, rest, Branches(counts) + SUFFIX); }
    }
  }

  lemma NoBranch(tokens: Tokens, cursor: nat, n: int)
    requires cursor + |SUFFIX| < |tokens| && !At(tokens, cursor, BRANCH)
    ensures !Completes(tokens[cursor..], n)
  {
    var rest := tokens[cursor..];
    AtIsPrefix(tokens, cursor, BRANCH);
    if Completes(rest, n) {
      var counts :| CompletesWith(rest, n, counts);
      LongerStarts(rest, n, counts);
    }
  }

  lemma AtIsPrefix(tokens: Tokens, i: nat, part: Tokens)
    requires i <= |tokens|
    ensures At(tokens, i, part) <==> part <= tokens[i..]
  {
    assert i + |part| <= |tokens| ==> tokens[i..i + |part|] == tokens[i..][..|part|];
  }

  lemma NoOptions(tokens: Tokens, cursor: nat, n: int)
    requires cursor + |SUFFIX| < |tokens| && At(tokens, cursor, BRANCH) && NoOption(tokens[cursor + |BRANCH|..])
    ensures !Completes(tokens[cursor..], n)
  {
    var rest := tokens[cursor..];
    assert rest[|BRANCH|..] == tokens[cursor + |BRANCH|..];
    if Completes(rest, n) {
      var counts :| CompletesWith(rest, n, counts);
      LongerStarts(rest, n, counts);
    }
  }

  lemma BranchBeforeSuffix(tokens: Tokens, cursor: nat, limit: nat)
    requires cursor < limit && limit + |SUFFIX| == |tokens| && tokens[limit..] == SUFFIX && At(tokens, cursor, BRANCH)
    ensures cursor + |BRANCH| <= limit
  {
    assert tokens[limit] == tokens[limit..][0] == "else";
    assert forall i :: 0 <= i < |BRANCH| ==> tokens[cursor + i] == tokens[cursor..cursor + |BRANCH|][i] == BRANCH[i];
    assert forall i :: cursor <= i < cursor + |BRANCH| ==> tokens[i] == BRANCH[i - cursor];
  }
}
