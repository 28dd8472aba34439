/** Sending one request to the Management API: again after a passing failure, if that is safe, and else only once. */
module ManagementClient {
  import opened Text

  datatype Body = TooLarge | Nothing | Json(value: string) | Malformed

  /** What one attempt comes to. A status below 400 is a response; others may arrive as an error or as a response. */
  datatype Reply = HttpError(status: int) | NetworkError | Response(status: int, body: Body)

  const TRANSIENT := {408, 425, 429, 500, 502, 503, 504, 520, 522, 524, 544}

  /** Seconds to wait before the second and the third attempt. */
  const SAFE_DELAYS := [2, 5]

  predicate Succeeds(r: Reply) {
    r.Response? && 200 <= r.status < 300
  }

  /** A failure after which the same request may be worth another attempt. */
  predicate Passing(r: Reply) {
    !Succeeds(r) && (r.NetworkError? || r.status in TRANSIENT)
  }

  /** Which failures are worth another attempt: of the network, and these answers, however they arrive. */
  lemma PassingExactly(status: int, body: Body)
    ensures Passing(NetworkError)
    ensures Passing(HttpError(status)) <==> status in [408, 425, 429, 500, 502, 503, 504, 520, 522, 524, 544]
    ensures Passing(Response(status, body)) <==> Passing(HttpError(status))
    ensures !Succeeds(HttpError(status)) && (Succeeds(Response(status, body)) <==> 200 <= status < 300)
  {}

  datatype Failure = Status(status: int) | Network | ResponseTooLarge | ResponseInvalid

  function FailureOf(r: Reply): Failure {
    match r
    case HttpError(status) => Status(status)
    case NetworkError => Network
    case Response(status, _) => Status(status)
  }

  /** A response is read once it has succeeded; an empty one is nothing. */
  function Answer(body: Body): Result<string, Failure> {
    match body
    case TooLarge => Err(ResponseTooLarge)
    case Nothing => Ok("null")
    case Json(value) => Ok(value)
    case Malformed => Err(ResponseInvalid)
  }

  function Delays(readOnly: bool, retrySafe: bool): seq<int> {
    if readOnly || retrySafe then SAFE_DELAYS else []
  }

  class Client {
    const replies: nat -> Reply
    var sent: nat
    var waited: seq<int>

    constructor (replies: nat -> Reply)
      ensures this.replies == replies && sent == 0 && waited == []
    {
      this.replies, sent, waited := replies, 0, [];
    }

    method Send() returns (r: Reply)
      modifies `sent
      ensures sent == old(sent) + 1 && r == replies(old(sent))
    {
      r := replies(sent);
      sent := sent + 1;
    }

    /** The request is sent until an attempt settles it or the attempts are used up: every attempt but the last failed
        in passing, the answer is that of the last, and the waits are those between the attempts. A request that is
        neither read-only nor safe to repeat is sent exactly once. */
    method Execute(readOnly: bool, retrySafe: bool) returns (r: Result<string, Failure>)
      modifies this
      ensures old(sent) < sent <= old(sent) + |Delays(readOnly, retrySafe)| + 1
      ensures !readOnly && !retrySafe ==> sent == old(sent) + 1
      ensures forall i: nat :: old(sent) <= i < sent - 1 ==> Passing(replies(i))
      ensures Passing(replies(sent - 1)) ==> sent == old(sent) + |Delays(readOnly, retrySafe)| + 1
      ensures waited == old(waited) + Delays(readOnly, retrySafe)[..sent - old(sent) - 1]
      ensures
        var last := replies(sent - 1);
        r == if Succeeds(last) then Answer(last.body) else Err(FailureOf(last))
    {
      var delays := Delays(readOnly, retrySafe);
      for attempt := 0 to |delays| + 1
        invariant sent == old(sent) + attempt
        invariant forall i: nat :: old(sent) <= i < sent ==> Passing(replies(i))
        invariant attempt <= |delays|
        invariant waited == old(waited) + delays[..attempt]
      {
        var reply := Send();
        if Succeeds(reply) { return Answer(reply.body); }
        if attempt == |delays| || !Passing(reply) { return Err(FailureOf(reply)); }
        waited := waited + [delays[attempt]];
      }
      assert false;
    }
  }
}
