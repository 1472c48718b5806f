/** The client object of the multiplexer (internal/wsclient/client.go): the fields its mutex guards and its
    operations on them, each taken without interruption, and the loops of the handshake that read frames.
    Mux cuts the operations where others can come in between: resolving and tearing down send after they
    have released the mutex (its ResolvedInTwoSteps and TeardownFinishes put the pieces together again). */
module RpcClient {
  import opened GoText
  import opened Frames
  import opened RequestIds

  datatype Response = Frame(frame: Frame) | Failed(reason: string)

  /** A buffered channel of capacity one. */
  class ReplyChan {
    var slot: Option<Response>

    constructor ()
      ensures slot == None
    {
      slot := None;
    }

    /** select { case ch <- r: default: } */
    method TrySend(r: Response)
      modifies this
      ensures slot == if old(slot).None? then Some(r) else old(slot)
    {
      if slot.None? { slot := Some(r); }
    }
  }

  class Client {
    var requestID: nat
    var conn: Option<int>
    var pending: map<string, ReplyChan>

    constructor ()
      ensures requestID == 0 && conn == None && pending == map[]
    {
      requestID, conn, pending := 0, None, map[];
    }

    /** atomic.AddUint64: the counter wraps. */
    method NextID() returns (n: nat)
      modifies this`requestID
      ensures requestID == n == (old(requestID) + 1) % COUNTER_SPAN
    {
      requestID := (requestID + 1) % COUNTER_SPAN;
      n := requestID;
    }

    method SetActiveConn(k: int)
      modifies this`conn
      ensures conn == Some(k)
    {
      conn := Some(k);
    }

    method GetActiveConn() returns (k: Option<int>)
      ensures k == conn
    {
      k := conn;
    }

    /** The registration inside callRPC: a fresh channel under the call's id. */
    method Register(reqID: string) returns (ch: ReplyChan)
      modifies this`pending
      ensures fresh(ch) && ch.slot == None
      ensures pending == old(pending)[reqID := ch]
    {
      ch := new ReplyChan();
      pending := pending[reqID := ch];
    }

    method UnregisterPending(reqID: string)
      modifies this`pending
      ensures pending == old(pending) - {reqID}
    {
      pending := pending - {reqID};
    }

    /** A frame is consumed exactly when it is a response whose id is waited for; then the entry is gone,
        its channel holds a reply, and no other channel is touched. */
    method ResolvePending(frame: Frame) returns (resolved: bool)
      modifies this`pending, pending.Values
      ensures resolved <==>
        (GetString(frame, "type") == "res" && GetString(frame, "id") != "" && GetString(frame, "id") in old(pending))
      ensures !resolved ==> pending == old(pending)
      ensures resolved ==> pending == old(pending) - {GetString(frame, "id")}
      ensures resolved ==> var ch := old(pending)[GetString(frame, "id")];
        ch.slot == if old(ch.slot).None? then Some(Frame(frame)) else old(ch.slot)
      ensures forall ch :: ch in old(pending).Values && (resolved ==> ch != old(pending)[GetString(frame, "id")]) ==>
        ch.slot == old(ch.slot)
    {
      if GetString(frame, "type") != "res" { return false; }
      var reqID := GetString(frame, "id");
      if reqID == "" { return false; }
      if reqID !in pending { return false; }
      var resCh := pending[reqID];
      pending := pending - {reqID};
      resCh.TrySend(Frame(frame));
      resolved := true;
    }

    /** Teardown: the connection and the whole map are swapped out at once, then every channel that was
        in the map is left holding a reply, the failure unless it had one already. */
    method ClearActiveConn(reason: string)
      modifies this`conn, this`pending, pending.Values
      ensures conn == None && pending == map[]
      ensures forall ch :: ch in old(pending).Values ==>
        ch.slot == if old(ch.slot).None? then Some(Failed(reason)) else old(ch.slot)
    {
      ghost var before := pending;
      conn := None;
      var left := pending;
      pending := map[];
      while left != map[]
        invariant conn == None && pending == map[]
        invariant forall id :: id in left ==> id in before && left[id] == before[id]
        invariant forall ch :: ch in before.Values ==>
          ch.slot == old(ch.slot) || (old(ch.slot).None? && ch.slot == Some(Failed(reason)))
        invariant forall id :: id in before && id !in left ==> before[id].slot.Some?
        decreases |left|
      {
        var id :| id in left;
        left[id].TrySend(Failed(reason));
        assert (left - {id}).Keys == left.Keys - {id};
        left := left - {id};
      }
    }
  }

  // ----- the handshake's read loops -----

  /** One ReadMessage: the bytes of a message, or an error and whether it is a timeout. */
  datatype Read = Bytes(raw: string) | ReadError(timeout: bool)

  datatype Challenge = Received | NotReceived | ReadFailed

  datatype ConnectResult = Accepted | Rejected | Broken

  /** Reading past the end of what a connection delivers is an error. */
  function ReadAt(input: seq<Read>, i: nat): Read {
    if i < |input| then input[i] else ReadError(false)
  }

  predicate FrameAt(decode: string -> Option<Frame>, input: seq<Read>, i: nat) {
    ReadAt(input, i).Bytes? && decode(ReadAt(input, i).raw).Some?
  }

  predicate IsChallenge(decode: string -> Option<Frame>, input: seq<Read>, i: nat) {
    && FrameAt(decode, input, i)
    && var f := decode(ReadAt(input, i).raw).value;
       GetString(f, "type") == "event" && ExtractEventType(f) == "connect.challenge"
  }

  /** A response carrying the id of the connect request. */
  predicate Answers(decode: string -> Option<Frame>, input: seq<Read>, reqID: string, i: nat) {
    && FrameAt(decode, input, i)
    && var f := decode(ReadAt(input, i).raw).value;
       GetString(f, "type") == "res" && GetString(f, "id") == reqID
  }

  /** What the reads are looked through for, by the places in their frames. */
  lemma ReadsMean(decode: string -> Option<Frame>, input: seq<Read>, reqID: string, i: nat)
    requires FrameAt(decode, input, i)
    ensures var f := decode(ReadAt(input, i).raw).value;
      && (IsChallenge(decode, input, i) <==>
            TextAt(f, ["type"]) == "event" && FirstText(f, EVENT_TYPE_PATHS) == "connect.challenge")
      && (Answers(decode, input, reqID, i) <==> TextAt(f, ["type"]) == "res" && TextAt(f, ["id"]) == reqID)
      && (Accepts(decode, input, reqID, i) <==>
            Answers(decode, input, reqID, i) && Lookup(Obj(f), ["error"]) in {None, Some(Null)})
  {
    var f := decode(ReadAt(input, i).raw).value;
    PathOne(f, "type");
    PathOne(f, "id");
    EventTypePlaces(f);
    ErrorIff(f, Null);
    hide GetString, TextAt, FirstText, ExtractEventType, Lookup, HasError;
  }

  /** The wait for the challenge ends at read n: the first that is an error or the challenge. */
  ghost predicate ChallengeEndsAt(decode: string -> Option<Frame>, input: seq<Read>, n: nat) {
    && n <= |input| && (ReadAt(input, n).ReadError? || IsChallenge(decode, input, n))
    && forall i: nat :: i < n ==> input[i].Bytes? && !IsChallenge(decode, input, i)
  }

  /** The wait for the answer, begun at read `from`, ends at read n. */
  ghost predicate AnswerEndsAt(decode: string -> Option<Frame>, input: seq<Read>, reqID: string, from: nat, n: nat) {
    && from <= n <= |input| && (ReadAt(input, n).ReadError? || Answers(decode, input, reqID, n))
    && forall i: nat :: from <= i < n ==> input[i].Bytes? && !Answers(decode, input, reqID, i)
  }

  /** An answer that carries no non-null error. */
  predicate Accepts(decode: string -> Option<Frame>, input: seq<Read>, reqID: string, i: nat) {
    Answers(decode, input, reqID, i) && !HasError(decode(ReadAt(input, i).raw).value)
  }

  /** The challenge is reported exactly when it comes before any read error; a timeout first means go on
      without it, any other error first is a failure. All reads up to that point are consumed, and none
      if the deadline for it cannot be set, which is a failure too. */
  method WaitForChallenge(decode: string -> Option<Frame>, input: seq<Read>, deadlineSet: bool)
    returns (r: Challenge, consumed: nat)
    ensures !deadlineSet ==> r == ReadFailed && consumed == 0
    ensures deadlineSet ==> 1 <= consumed && ChallengeEndsAt(decode, input, consumed - 1)
    ensures deadlineSet ==> (r == Received <==> IsChallenge(decode, input, consumed - 1))
    ensures deadlineSet ==> (r == NotReceived <==> ReadAt(input, consumed - 1) == ReadError(true))
    ensures deadlineSet ==> (r == ReadFailed <==> ReadAt(input, consumed - 1) == ReadError(false))
    ensures r != ReadFailed ==> consumed <= |input|
  {
    consumed := 0;
    if !deadlineSet { return ReadFailed, consumed; }
    while true
      invariant consumed <= |input|
      invariant forall i: nat :: i < consumed ==> input[i].Bytes? && !IsChallenge(decode, input, i)
      decreases |input| - consumed
    {
      var got := ReadAt(input, consumed);
      consumed := consumed + 1;
      if got.ReadError? { return if got.timeout then NotReceived else ReadFailed, consumed; }
      var frame := decode(got.raw);
      if frame.None? { continue; }
      if GetString(frame.value, "type") == "event" && ExtractEventType(frame.value) == "connect.challenge" {
        return Received, consumed;
      }
    }
  }

  /** The answer to the connect request is the first response with its id, whatever undecodable or
      foreign frames come before it; it is accepted exactly when it carries no non-null error. */
  method WaitForConnectResponse(decode: string -> Option<Frame>, input: seq<Read>, reqID: string, from: nat)
    returns (r: ConnectResult, consumed: nat)
    requires from <= |input|
    ensures 1 <= consumed && AnswerEndsAt(decode, input, reqID, from, consumed - 1)
    ensures r == Broken <==> ReadAt(input, consumed - 1).ReadError?
    ensures r == Accepted <==> Accepts(decode, input, reqID, consumed - 1)
  {
    consumed := from;
    while true
      invariant from <= consumed <= |input|
      invariant forall i: nat :: from <= i < consumed ==> input[i].Bytes? && !Answers(decode, input, reqID, i)
      decreases |input| - consumed
    {
      var got := ReadAt(input, consumed);
      consumed := consumed + 1;
      if got.ReadError? { return Broken, consumed; }
      var frame := decode(got.raw);
      if frame.None? { continue; }
      if GetString(frame.value, "type") != "res" { continue; }
      if GetString(frame.value, "id") != reqID { continue; }
      if HasError(frame.value) { return Rejected, consumed; }
      return Accepted, consumed;
    }
  }

  /** The waits end at reads a and b, and neither end is a failure. */
  ghost predicate Completes(decode: string -> Option<Frame>, input: seq<Read>, reqID: string, a: nat, b: nat) {
    && ChallengeEndsAt(decode, input, a) && ReadAt(input, a) != ReadError(false)
    && AnswerEndsAt(decode, input, reqID, a + 1, b) && Accepts(decode, input, reqID, b)
  }

  ghost predicate CanComplete(decode: string -> Option<Frame>, input: seq<Read>, reqID: string) {
    exists a: nat, b: nat :: Completes(decode, input, reqID, a, b)
  }

  datatype HandshakeResult = Completed | DeadlineFailed | ChallengeFailed | WriteFailed | Refused(r: ConnectResult)

  /** Which of the handshake's outside calls succeed: the deadlines set at its start and for the challenge,
      the write of the request, and the deadline cleared at its end. */
  datatype Calls = Calls(starts: bool, limits: bool, written: bool, cleared: bool)

  /** The whole handshake over one connection: challenge (its wait ends at read a), connect request,
      answer (its wait ends at read b). It completes exactly when all its outside calls succeed, the
      challenge comes or its wait times out, and of the reads that follow the first response with the
      request's id comes before any error and reports none. */
  method Handshake(decode: string -> Option<Frame>, input: seq<Read>, reqID: string, calls: Calls)
    returns (r: HandshakeResult, ghost a: nat, ghost b: nat)
    ensures calls.starts && calls.limits ==> ChallengeEndsAt(decode, input, a)
    ensures r == ChallengeFailed <==> calls.starts && (!calls.limits || ReadAt(input, a) == ReadError(false))
    ensures r == WriteFailed <==>
      (calls.starts && calls.limits && ReadAt(input, a) != ReadError(false) && !calls.written)
    ensures r.Refused? ==>
      (calls.written && AnswerEndsAt(decode, input, reqID, a + 1, b) && !Accepts(decode, input, reqID, b))
    // without the ghosts
    ensures r == Completed <==> calls == Calls(true, true, true, true) && CanComplete(decode, input, reqID)
    ensures r == DeadlineFailed <==>
      (!calls.starts || (calls == Calls(true, true, true, false) && CanComplete(decode, input, reqID)))
  {
    hide Answers, Accepts, IsChallenge, FrameAt, ReadAt, ChallengeEndsAt, AnswerEndsAt, Completes, CanComplete;
    a, b := 0, 0;
    if !calls.starts { return DeadlineFailed, a, b; }
    var got, consumed := WaitForChallenge(decode, input, calls.limits);
    if !calls.limits { return ChallengeFailed, a, b; }
    a := consumed - 1;
    if got == ReadFailed {
      if CanComplete(decode, input, reqID) { CompletesFrom(decode, input, reqID, a); }
      return ChallengeFailed, a, b;
    }
    if !calls.written { return WriteFailed, a, b; }
    var answer, used := WaitForConnectResponse(decode, input, reqID, consumed);
    b := used - 1;
    CompletesHere(decode, input, reqID, a, b);
    if answer != Accepted { return Refused(answer), a, b; }
    r := if calls.cleared then Completed else DeadlineFailed;
  }

  /** Where the waits end decides whether a handshake can complete at all. */
  lemma CompletesFrom(decode: string -> Option<Frame>, input: seq<Read>, reqID: string, a: nat)
    requires ChallengeEndsAt(decode, input, a) && CanComplete(decode, input, reqID)
    ensures ReadAt(input, a) != ReadError(false)
  {
    var i: nat, j: nat :| Completes(decode, input, reqID, i, j);
    EndsAreUnique(decode, input, reqID, 0, a, i);
  }

  lemma CompletesHere(decode: string -> Option<Frame>, input: seq<Read>, reqID: string, a: nat, b: nat)
    requires ChallengeEndsAt(decode, input, a) && ReadAt(input, a) != ReadError(false)
    requires AnswerEndsAt(decode, input, reqID, a + 1, b)
    ensures CanComplete(decode, input, reqID) <==> Accepts(decode, input, reqID, b)
  {
    if CanComplete(decode, input, reqID) {
      var i: nat, j: nat :| Completes(decode, input, reqID, i, j);
      EndsAreUnique(decode, input, reqID, a + 1, a, i);
      EndsAreUnique(decode, input, reqID, a + 1, b, j);
    }
    if Accepts(decode, input, reqID, b) { assert Completes(decode, input, reqID, a, b); }
  }

  /** Both ends are determined by the reads alone. */
  lemma EndsAreUnique(decode: string -> Option<Frame>, input: seq<Read>, reqID: string, from: nat, n: nat, m: nat)
    ensures ChallengeEndsAt(decode, input, n) && ChallengeEndsAt(decode, input, m) ==> n == m
    ensures AnswerEndsAt(decode, input, reqID, from, n) && AnswerEndsAt(decode, input, reqID, from, m) ==> n == m
  {
    assert n < m && m <= |input| ==> ReadAt(input, n) == input[n];
    assert m < n && n <= |input| ==> ReadAt(input, m) == input[m];
  }
}
