/** What the statements of a request do to the transaction they are run in, as the server has it. */
module TransactionStatus {
  import opened Text
  import opened SqlLexer

  datatype Effect =
    | Nothing
    | Opens
    | Ends(chains: bool)
    | Undoes(chains: bool)
    | MovesSavepoint
    | SetsSession
    | Detaches
    | Fails

  /** After COMMIT or ROLLBACK: `[WORK | TRANSACTION] [AND [NO] CHAIN]`, and whether a transaction follows at once. */
  function Chains(rest: seq<Token>): Option<bool> {
    var tail := if rest != [] && (rest[0] == "work" || rest[0] == "transaction") then rest[1..] else rest;
    if tail == [] || tail == ["and", "no", "chain"] then Some(false)
    else if tail == ["and", "chain"] then Some(true)
    else None
  }

  /** By the first words of the statement. What starts like COMMIT or ROLLBACK and goes on otherwise is a syntax error,
      or not allowed in a transaction. */
  function EffectOf(tokens: seq<Token>): Effect {
    if tokens == [] then Nothing
    else
      var first, rest := tokens[0], tokens[1..];
      if first == "begin" || first == "start" then Opens
      else if first == "commit" || first == "end" then
        (match Chains(rest) case Some(chains) => Ends(chains) case None => Fails)
      else if first == "rollback" && rest != [] && (rest[0] == "to" || (|rest| > 1 && rest[1] == "to")) then MovesSavepoint
      else if first == "rollback" || first == "abort" then
        (match Chains(rest) case Some(chains) => Undoes(chains) case None => Fails)
      else if first == "savepoint" || first == "release" then MovesSavepoint
      else if first == "prepare" then (if rest != [] && rest[0] == "transaction" then Detaches else SetsSession)
      else if first == "set" && rest != [] && (rest[0] == "session" || rest[0] == "transaction") then SetsSession
      else Nothing
  }

  /** Outside a transaction, inside one, or after an error, which undoes what is open and ends the request. Inside, what
      was done since the first BEGIN is `whole` until some of it is committed or undone. */
  datatype Status = Outside | Inside(whole: bool) | Failed

  function After(status: Status, tokens: seq<Token>): Status {
    match status
    case Failed => Failed
    case Outside =>
      (match EffectOf(tokens)
       case Opens => Inside(true)
       case MovesSavepoint | Detaches | Fails => Failed
       case _ => Outside)
    case Inside(whole) =>
      (match EffectOf(tokens)
       case Nothing | Opens | SetsSession => Inside(whole)
       case Ends(chains) => if chains then Inside(false) else Outside
       case Undoes(chains) => if chains then Inside(false) else Outside
       case MovesSavepoint => Inside(false)
       case Detaches => Outside
       case Fails => Failed)
  }

  function StatusAfter(statements: seq<Statement>): Status {
    if statements == [] then Outside
    else After(StatusAfter(statements[..|statements| - 1]), statements[|statements| - 1].tokens)
  }

  lemma StatusStep(statements: seq<Statement>, k: nat)
    requires k < |statements|
    ensures StatusAfter(statements[..k + 1]) == After(StatusAfter(statements[..k]), statements[k].tokens)
  {
    assert statements[..k + 1][..k] == statements[..k];
  }

  /** The statements are one transaction, from the first to the last: all of it or nothing. */
  predicate AreAtomic(statements: seq<Statement>) {
    && |statements| >= 2
    && (forall k :: 0 < k < |statements| ==> StatusAfter(statements[..k]) == Inside(true))
    && EffectOf(statements[|statements| - 1].tokens) == Ends(false)
  }

  /** The statement commits all of what the first BEGIN opened. */
  predicate EndsAt(statements: seq<Statement>, j: nat)
    requires j < |statements|
  {
    StatusAfter(statements[..j]) == Inside(true) && EffectOf(statements[j].tokens).Ends?
  }

  /** After BEGIN, statements without an effect leave the transaction open and whole. */
  lemma {:induction false} StaysInside(statements: seq<Statement>, k: nat)
    requires 0 < k <= |statements| && EffectOf(statements[0].tokens) == Opens
    requires forall i :: 0 < i < k ==> EffectOf(statements[i].tokens) == Nothing
    ensures StatusAfter(statements[..k]) == Inside(true)
  {
    StatusStep(statements, k - 1);
    if k > 1 {
      StaysInside(statements, k - 1);
    } else {
      assert statements[..0] == [];
    }
  }

  /** What is committed whole is over: the transaction is not open and whole any more. */
  lemma OverAfter(statements: seq<Statement>, j: nat)
    requires j < |statements| && EndsAt(statements, j)
    ensures StatusAfter(statements[..j + 1]) != Inside(true)
  {
    StatusStep(statements, j);
  }
}
