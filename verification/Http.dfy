// What the HTTP clients make of a reply: core-sdk/src/client.rs and its awaited twin async_client.rs.
module Http {
  import opened Common

  /** NoReply is a failed send (refused, reset, timed out). body is None when no value could be parsed from it. */
  datatype HttpReply = NoReply | Reply(status: nat, body: Option<Value>)

  // Section 15.3 of RFC 9110.
  predicate IsSuccess(status: nat) {
    200 <= status < 300
  }

  function GetOutcome(reply: HttpReply): Result<Value> {
    match reply
    case NoReply => Err(ConnectionError)
    case Reply(status, body) =>
      if IsSuccess(status) then
        if body.Some? then Ok(body.value) else Err(InternalError)
      else if status == 404 then Err(KeyNotFound)
      else Err(InternalError)
  }

  function SetOutcome(reply: HttpReply): Option<ErrorCode> {
    match reply
    case NoReply => Some(ConnectionError)
    case Reply(status, _) => if IsSuccess(status) then None else Some(InternalError)
  }

  // ------------------------------------------------------------------ what callers are promised

  /** The code for the caller of a get, when this came of its request: one code for each case, and no other. */
  predicate GetSays(reply: HttpReply, code: ErrorCode) {
    && (code == Success <==> reply.Reply? && 200 <= reply.status < 300 && reply.body.Some?)
    && (code == KeyNotFound <==> reply.Reply? && reply.status == 404)
    && (code == ConnectionError <==> reply.NoReply?)
    && (code == InternalError <==>
          reply.Reply? && reply.status != 404 && !(200 <= reply.status < 300 && reply.body.Some?))
  }

  /** The same for a set. */
  predicate SetSays(reply: HttpReply, code: ErrorCode) {
    && (code == Success <==> reply.Reply? && 200 <= reply.status < 300)
    && (code == ConnectionError <==> reply.NoReply?)
    && (code == InternalError <==> reply.Reply? && !(200 <= reply.status < 300))
  }

  // ------------------------------------------------------------------ what may go wrong on the way

  /** A GET reply that a network or a failing server can produce whatever the map holds. */
  predicate BrokenGet(reply: HttpReply) {
    reply.NoReply? || (if IsSuccess(reply.status) then reply.body.None? else reply.status != 404)
  }

  predicate BrokenSet(reply: HttpReply) {
    reply.NoReply? || !IsSuccess(reply.status)
  }

  predicate TransportError(code: ErrorCode) {
    code == ConnectionError || code == InternalError
  }

  /** Exactly the replies that tell the caller of a transport error may come whatever the map holds. */
  lemma BrokenMeansTransport(reply: HttpReply, code: ErrorCode)
    ensures GetSays(reply, code) ==> (BrokenGet(reply) <==> TransportError(code))
    ensures SetSays(reply, code) ==> (BrokenSet(reply) <==> TransportError(code))
  {
  }
}
