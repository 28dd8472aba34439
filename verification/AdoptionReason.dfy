/** The audit reason that an adoption prints into its waiver, and the pattern that a later run matches it against. */
module AdoptionReason {
  import opened Text

  datatype Classification = NoProvenance | LimitedProvenance | InvitedProvenance

  function ClassificationText(c: Classification): string {
    match c
    case NoProvenance => "one_off_adoption_" + "no_provenance"
    case LimitedProvenance => "one_off_adoption_" + ("verified_" + "limited_member_provenance")
    case InvitedProvenance => "one_off_adoption_" + ("verified_" + "invited_member_provenance")
  }

  const SOURCE_RUN := "31526654618"

  /** Where an apply run says it runs; the repository is fixed. */
  datatype AuditContext = AuditContext(run: string, attempt: string, actor: string, sha: string)

  predicate All(s: string, p: char -> bool) {
    forall i :: 0 <= i < |s| ==> p(s[i])
  }

  predicate IsActorChar(c: char) {
    IsAlpha(c) || IsDigit(c) || c == '_' || c == '.' || c == '-' || c == '[' || c == ']'
  }

  predicate IsHex(c: char) {
    IsDigit(c) || 'a' <= c <= 'f'
  }

  /** `[1-9][0-9]{min,max}` */
  predicate IsNumber(s: string, min: nat, max: nat) {
    min < |s| <= max + 1 && s[0] != '0' && All(s, IsDigit)
  }

  /** What the pattern asks of the parts it matches. */
  predicate HasPatternParts(x: AuditContext) {
    && IsNumber(x.run, 5, 20)
    && IsNumber(x.attempt, 0, 5)
    && 1 <= |x.actor| <= 100 && All(x.actor, IsActorChar)
    && |x.sha| == 40 && All(x.sha, IsHex)
  }

  /** A character class of the pattern, repeated: `[alphabet]{min,max}`. */
  predicate IsRunOf(s: string, alphabet: string, min: nat, max: nat) {
    min <= |s| <= max && forall i :: 0 <= i < |s| ==> s[i] in alphabet
  }

  lemma CharacterClasses(c: char)
    ensures IsDigit(c) <==> c in DIGITS
    ensures IsDigit(c) && c != '0' <==> c in "123456789"
    ensures IsHex(c) <==> c in DIGITS + "abcdef"
    ensures IsActorChar(c) <==> c in UPPER + LOWER + DIGITS + "_.-[]"
  {
    WordCharacters(c);
    Alphabets();
    assert c in "_.-[]" <==> c == '_' || c == '.' || c == '-' || c == '[' || c == ']';
    HexLetters(c);
    if '0' <= c <= '9' { PlaceIn(DIGITS, '0', c); }
    hide LOWER, UPPER, DIGITS;
  }

  lemma HexLetters(c: char)
    ensures 'a' <= c <= 'f' <==> c in "abcdef"
    ensures '1' <= c <= '9' <==> c in "123456789"
  {
    assert "abcdef"[0] == 'a' && "abcdef"[1] == 'b' && "abcdef"[2] == 'c';
    assert "abcdef"[3] == 'd' && "abcdef"[4] == 'e' && "abcdef"[5] == 'f';
    if '1' <= c <= '9' { PlaceIn("123456789", '1', c); }
  }

  /** The parts that the pattern asks for, class by class. */
  lemma PatternPartsExactly(x: AuditContext)
    ensures HasPatternParts(x) <==>
      && x.run != "" && x.run[0] in "123456789" && IsRunOf(x.run[1..], DIGITS, 5, 20)
      && x.attempt != "" && x.attempt[0] in "123456789" && IsRunOf(x.attempt[1..], DIGITS, 0, 5)
      && IsRunOf(x.actor, UPPER + LOWER + DIGITS + "_.-[]", 1, 100)
      && IsRunOf(x.sha, DIGITS + "abcdef", 40, 40)
  {
    hide IsDigit, IsHex, IsActorChar, LOWER, UPPER, DIGITS;
    forall c: char
      ensures (IsDigit(c) <==> c in DIGITS) && (IsDigit(c) && c != '0' <==> c in "123456789")
      ensures (IsHex(c) <==> c in DIGITS + "abcdef") && (IsActorChar(c) <==> c in UPPER + LOWER + DIGITS + "_.-[]")
    {
      CharacterClasses(c);
    }
    NumberExactly(x.run, 5, 20);
    NumberExactly(x.attempt, 0, 5);
  }

  lemma NumberExactly(s: string, min: nat, max: nat)
    requires forall c :: (IsDigit(c) <==> c in DIGITS) && (IsDigit(c) && c != '0' <==> c in "123456789")
    ensures IsNumber(s, min, max) <==> s != "" && s[0] in "123456789" && IsRunOf(s[1..], DIGITS, min, max)
  {
    hide IsDigit, DIGITS;
    if IsNumber(s, min, max) {
      forall i | 0 <= i < |s[1..]| ensures s[1..][i] in DIGITS { assert s[1..][i] == s[i + 1]; }
    }
    if s != "" && s[0] in "123456789" && IsRunOf(s[1..], DIGITS, min, max) {
      forall i | 0 <= i < |s| ensures IsDigit(s[i]) {
        if i > 0 { assert s[1..][i - 1] == s[i]; }
      }
    }
  }

  /** What the validation of the environment accepts, which refuses the run that created the account. */
  predicate IsAuditContext(x: AuditContext) {
    HasPatternParts(x) && x.run != SOURCE_RUN
  }

  const HEAD := "One-off Klimov partial-onboarding adoption; not a generic resume; classification="
  const AUDIT := "; source_creation_run=31526654618; audit=Alisia777/ContentEngine/actions/runs/"

  function Reason(c: Classification, x: AuditContext): string {
    HEAD + (ClassificationText(c) + (AUDIT + Tail(x)))
  }

  function Tail(x: AuditContext): string {
    x.run + ("; attempt=" + (x.attempt + ("; actor=" + (x.actor + ("; sha=" + (x.sha + "."))))))
  }

  /** The pattern matches the whole text in some way, and the run that it captures is not the source run. */
  ghost predicate MatchesPriorReason(reason: string, c: Classification) {
    exists x :: MatchesWith(reason, c, x)
  }

  ghost predicate MatchesWith(reason: string, c: Classification, x: AuditContext) {
    HasPatternParts(x) && reason == Reason(c, x) && x.run != SOURCE_RUN
  }

  // ---------------------------------------------------------------------------------------------
  // The text determines its parts
  // ---------------------------------------------------------------------------------------------

  /** A part ends at the first separator. */
  lemma PartUnique(d: char, a: string, x: string, b: string, y: string)
    requires a + x == b + y && x != [] && y != [] && x[0] == d && y[0] == d && d !in a && d !in b
    ensures a == b && x == y
  {
    assert (a + x)[|a|] == d && (b + y)[|b|] == d;
    assert forall i :: 0 <= i < |a| ==> (a + x)[i] == a[i] != d;
    assert forall i :: 0 <= i < |b| ==> (b + y)[i] == b[i] != d;
    assert a == (a + x)[..|a|] && b == (b + y)[..|b|];
    assert x == (a + x)[|a|..] && y == (b + y)[|b|..];
  }

  lemma NoSeparator(x: AuditContext)
    requires HasPatternParts(x)
    ensures ';' !in x.run && ';' !in x.attempt && ';' !in x.actor && '.' !in x.sha
  {}

  lemma ShaUnique(a: string, b: string)
    requires "; sha=" + (a + ".") == "; sha=" + (b + ".") && '.' !in a && '.' !in b
    ensures a == b
  {
    Cancel("; sha=", a + ".", b + ".");
    PartUnique('.', a, ".", b, ".");
  }

  lemma TailUnique(x: AuditContext, y: AuditContext)
    requires HasPatternParts(x) && HasPatternParts(y) && Tail(x) == Tail(y)
    ensures x == y
  {
    NoSeparator(x);
    NoSeparator(y);
    hide HasPatternParts;
    var xSha, ySha := "; sha=" + (x.sha + "."), "; sha=" + (y.sha + ".");
    var xActor, yActor := "; actor=" + (x.actor + xSha), "; actor=" + (y.actor + ySha);
    var xAttempt, yAttempt := "; attempt=" + (x.attempt + xActor), "; attempt=" + (y.attempt + yActor);
    PartUnique(';', x.run, xAttempt, y.run, yAttempt);
    Cancel("; attempt=", x.attempt + xActor, y.attempt + yActor);
    PartUnique(';', x.attempt, xActor, y.attempt, yActor);
    Cancel("; actor=", x.actor + xSha, y.actor + ySha);
    PartUnique(';', x.actor, xSha, y.actor, ySha);
    ShaUnique(x.sha, y.sha);
  }

  lemma ClassificationUnique(c: Classification, a: string, d: Classification, b: string)
    requires ClassificationText(c) + a == ClassificationText(d) + b
    ensures c == d
  {
    hide ClassificationText;
    ClassificationLetters(c, a);
    ClassificationLetters(d, b);
  }

  lemma ClassificationLetters(c: Classification, rest: string)
    ensures
      var text := ClassificationText(c) + rest;
      && |text| > 26
      && text[17] == (if c == NoProvenance then 'n' else 'v')
      && (c != NoProvenance ==> text[26] == if c == LimitedProvenance then 'l' else 'i')
  {
    var text := ClassificationText(c);
    assert |text| > 26 && (text + rest)[17] == text[17] && (text + rest)[26] == text[26];
  }

  /** Printing loses nothing: classification, run, attempt, actor and commit can all be read back. */
  lemma ReasonInjective(c: Classification, x: AuditContext, d: Classification, y: AuditContext)
    requires HasPatternParts(x) && HasPatternParts(y) && Reason(c, x) == Reason(d, y)
    ensures c == d && x == y
  {
    hide HasPatternParts, Tail, ClassificationText;
    Cancel(HEAD, ClassificationText(c) + (AUDIT + Tail(x)), ClassificationText(d) + (AUDIT + Tail(y)));
    ClassificationUnique(c, AUDIT + Tail(x), d, AUDIT + Tail(y));
    Cancel(ClassificationText(c), AUDIT + Tail(x), AUDIT + Tail(y));
    Cancel(AUDIT, Tail(x), Tail(y));
    TailUnique(x, y);
  }

  /** The round trip: what a run prints in an accepted context is matched for the classification that it was printed
      for and for no other. */
  lemma PrintedIsMatched(c: Classification, x: AuditContext, d: Classification)
    requires IsAuditContext(x)
    ensures MatchesPriorReason(Reason(c, x), d) <==> c == d
  {
    hide HasPatternParts, Reason;
    if MatchesPriorReason(Reason(c, x), d) {
      var y :| MatchesWith(Reason(c, x), d, y);
      ReasonInjective(c, x, d, y);
    }
    if c == d { assert MatchesWith(Reason(c, x), d, x); }
  }

  // ---------------------------------------------------------------------------------------------
  // Reading the parts back
  // ---------------------------------------------------------------------------------------------

  /** The text before the first separator. */
  function Before(d: char, s: string): (r: string)
    ensures r <= s && d !in r
    ensures r == s || s[|r|] == d
  {
    if s == "" || s[0] == d then "" else [s[0]] + Before(d, s[1..])
  }

  function After(p: string, s: string): string {
    if p <= s then s[|p|..] else ""
  }

  lemma BeforeSeparator(d: char, a: string, x: string)
    requires d !in a && x != [] && x[0] == d
    ensures Before(d, a + x) == a && After(a, a + x) == x
  {
    var r := Before(d, a + x);
    assert (a + x)[|a|] == d;
    assert forall i :: 0 <= i < |a| ==> (a + x)[i] == a[i] != d;
    assert forall i :: 0 <= i < |r| ==> (a + x)[i] == r[i] != d;
  }

  lemma AfterPrefix(p: string, a: string)
    ensures p <= p + a && After(p, p + a) == a
  {}

  /** The parts that the separators delimit. */
  function PartsOf(tail: string): AuditContext {
    var run := Before(';', tail);
    var t1 := After("; attempt=", After(run, tail));
    var attempt := Before(';', t1);
    var t2 := After("; actor=", After(attempt, t1));
    var actor := Before(';', t2);
    var t3 := After("; sha=", After(actor, t2));
    AuditContext(run, attempt, actor, Before('.', t3))
  }

  /** Matching by reading the parts off. */
  predicate MatchesReason(reason: string, c: Classification) {
    var head := HEAD + (ClassificationText(c) + AUDIT);
    var x := PartsOf(After(head, reason));
    IsAuditContext(x) && reason == Reason(c, x)
  }

  lemma PartsOfTail(x: AuditContext)
    requires HasPatternParts(x)
    ensures PartsOf(Tail(x)) == x
  {
    NoSeparator(x);
    hide HasPatternParts, Before, After;
    var t4 := x.sha + ".";
    var t3 := x.actor + ("; sha=" + t4);
    var t2 := x.attempt + ("; actor=" + t3);
    assert Tail(x) == x.run + ("; attempt=" + t2);
    BeforeSeparator(';', x.run, "; attempt=" + t2);
    AfterPrefix("; attempt=", t2);
    BeforeSeparator(';', x.attempt, "; actor=" + t3);
    AfterPrefix("; actor=", t3);
    BeforeSeparator(';', x.actor, "; sha=" + t4);
    AfterPrefix("; sha=", t4);
    BeforeSeparator('.', x.sha, ".");
  }

  /** Reading the parts off decides the pattern. */
  lemma MatchingIsReading(reason: string, c: Classification)
    ensures MatchesReason(reason, c) <==> MatchesPriorReason(reason, c)
  {
    hide HasPatternParts, Tail, PartsOf, ClassificationText;
    var head := HEAD + (ClassificationText(c) + AUDIT);
    if MatchesReason(reason, c) {
      assert MatchesWith(reason, c, PartsOf(After(head, reason)));
    }
    if MatchesPriorReason(reason, c) {
      var x :| MatchesWith(reason, c, x);
      assert reason == head + Tail(x);
      AfterPrefix(head, Tail(x));
      PartsOfTail(x);
    }
  }

  /** And a reason that names the source run is never matched, whatever else it says. */
  lemma SourceRunNeverMatched(c: Classification, x: AuditContext, d: Classification)
    requires HasPatternParts(x) && x.run == SOURCE_RUN
    ensures !MatchesPriorReason(Reason(c, x), d)
  {
    hide HasPatternParts, Reason;
    if MatchesPriorReason(Reason(c, x), d) {
      var y :| MatchesWith(Reason(c, x), d, y);
      ReasonInjective(c, x, d, y);
    }
  }
}
