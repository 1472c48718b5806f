/** A send request from the HTTP body to the gateway and back (internal/httpapi/server.go), with the two
    gateway operations it uses (internal/wsclient/client.go). What a remote call returns is an input. */
module Inbound {
  import opened GoText
  import opened Frames
  import opened Storage
  import opened Delivery
  import opened RequestIds
  import opened SessionKeys

  /** The error's text is what err.Error() prints. */
  datatype Error = Error(code: string, text: string)

  datatype Result<+T> = Ok(value: T) | Err(error: Error)

  datatype Params =
    | SendParams(key: string, message: string)
    | CreateParams(sessionKey: Option<string>, workspace: Option<string>, agentId: Option<string>)

  /** One request written to the gateway. */
  datatype Rpc = Rpc(id: string, params: Params)

  datatype Created = Created(key: string, sessionID: string, requestID: string)

  datatype CreateOptions = CreateOptions(workspace: string, agentID: string)

  /** The world outside: `reply(n)` is how the n-th remote call ends, `show` prints an error value. */
  datatype World = World(reply: nat -> Result<Frame>, show: Json -> string)

  class Gateway {
    const world: World
    var step: nat
    var log: seq<Rpc>

    constructor (world: World)
      ensures this.world == world && step == 0 && log == []
    {
      this.world := world;
      step, log := 0, [];
    }

    method NextID() returns (n: nat)
      modifies this`step
      ensures step == n == old(step) + 1
    {
      step := step + 1;
      n := step;
    }

    method CallRPC(id: string, params: Params) returns (r: Result<Frame>)
      modifies this`log
      ensures log == old(log) + [Rpc(id, params)] && r == world.reply(|old(log)|)
    {
      r := world.reply(|log|);
      log := log + [Rpc(id, params)];
    }

    method SendSessionMessage(sessionKey: string, message: string) returns (requestID: string, err: Option<Error>)
      modifies this`step, this`log
      ensures step == old(step) + 1
      ensures requestID == RequestId(Send, step) && log == old(log) + [Rpc(requestID, SendParams(sessionKey, message))]
      ensures err == SendError(world, |old(log)|)
    {
      var n := NextID();
      requestID := RequestId(Send, n);
      var r := CallRPC(requestID, SendParams(sessionKey, message));
      if r.Err? { return requestID, Some(r.error); }
      if HasError(r.value) {
        return requestID, Some(Error("send_rejected", "sessions.send: send_rejected: " + world.show(r.value["error"])));
      }
      err := None;
    }

    method CreateSession(sessionKey: string, opts: CreateOptions) returns (r: Result<Created>)
      modifies this`step, this`log
      ensures step == old(step) + 1
      ensures log == old(log) + CreateRpcs(world, |old(log)|, step, sessionKey, opts)
      ensures r == CreateResult(world, |old(log)|, step, sessionKey, opts)
    {
      hide RequestId, TrimSpace, Contains, ToLower, Finish;
      var n := NextID();
      var reqID := RequestId(Create, n);
      var key, workspace, agent := TrimSpace(sessionKey), TrimSpace(opts.workspace), TrimSpace(opts.agentID);
      var answer := CallRPC(reqID, CreateParams(Present(key), Present(workspace), Present(agent)));
      if answer.Err? { return Err(answer.error); }
      var frame := answer.value;
      if HasError(frame) {
        if BlamesOptions(world, frame) && (workspace != "" || agent != "") {
          answer := CallRPC(reqID + "-fallback", CreateParams(Present(key), None, None));
          if answer.Err? { return Err(answer.error); }
          frame := answer.value;
          if HasError(frame) { return Rejected(world.show(frame["error"])); }
        } else {
          return Rejected(world.show(frame["error"]));
        }
      }
      r := ReadCreated(frame, key, reqID);
    }

    /** The end of CreateSession: key and session id out of a frame that carries no error. */
    method ReadCreated(frame: Frame, key: string, reqID: string) returns (r: Result<Created>)
      ensures r == Finish(frame, key, reqID)
    {
      var res := GetMap(frame, "result");
      var resultKey := FirstNonEmpty([GetString(res, "key"), GetString(res, "sessionKey")]);
      var sessionID := GetString(res, "sessionId");
      if resultKey == "" { resultKey := FirstNonEmpty([GetString(frame, "key"), GetString(frame, "sessionKey")]); }
      if sessionID == "" { sessionID := GetString(frame, "sessionId"); }
      if sessionID == "" { sessionID := GetString(GetMap(res, "entry"), "sessionId"); }
      if resultKey == "" && key != "" { resultKey := key; }
      if resultKey == "" { return Rejected("returned empty key"); }
      r := Ok(Created(resultKey, sessionID, reqID));
    }
  }

  // ----- one send, one create -----

  /** How the n-th remote call, a send, ends for its caller. */
  function SendError(w: World, n: nat): Option<Error> {
    match w.reply(n)
    case Err(e) => Some(e)
    case Ok(f) =>
      if HasError(f) then Some(Error("send_rejected", "sessions.send: send_rejected: " + w.show(f["error"]))) else None
  }

  function Present(s: string): Option<string> { if s == "" then None else Some(s) }

  function Rejected(cause: string): Result<Created> {
    Err(Error("session_create_rejected", "sessions.create: session_create_rejected: " + cause))
  }

  /** The gateway says it does not know the optional parameters. */
  predicate BlamesOptions(w: World, f: Frame)
    requires HasError(f)
  {
    var text := ToLower(TrimSpace(w.show(f["error"])));
    Contains(text, "unexpected property 'workspace'") || Contains(text, "unexpected property 'agentid'")
  }

  /** The key a create response names: under `result` first, then at the top. */
  function NamedKey(f: Frame): string {
    var inner := FirstNonEmpty([GetString(GetMap(f, "result"), "key"), GetString(GetMap(f, "result"), "sessionKey")]);
    if inner != "" then inner else FirstNonEmpty([GetString(f, "key"), GetString(f, "sessionKey")])
  }

  function NamedSession(f: Frame): string {
    var inner := GetString(GetMap(f, "result"), "sessionId");
    if inner != "" then inner
    else if GetString(f, "sessionId") != "" then GetString(f, "sessionId")
    else GetString(GetMap(GetMap(f, "result"), "entry"), "sessionId")
  }

  function Finish(f: Frame, key: string, reqID: string): Result<Created> {
    var named := if NamedKey(f) != "" then NamedKey(f) else key;
    if named == "" then Rejected("returned empty key") else Ok(Created(named, NamedSession(f), reqID))
  }

  function CreateRequest(step: nat, sessionKey: string, opts: CreateOptions): Rpc {
    Rpc(RequestId(Create, step),
      CreateParams(Present(TrimSpace(sessionKey)), Present(TrimSpace(opts.workspace)),
        Present(TrimSpace(opts.agentID))))
  }

  function FallbackRequest(step: nat, sessionKey: string): Rpc {
    Rpc(RequestId(Create, step) + "-fallback", CreateParams(Present(TrimSpace(sessionKey)), None, None))
  }

  /** The create that starts with the n-th remote call is tried again without its optional parameters. */
  predicate FallsBack(w: World, n: nat, opts: CreateOptions) {
    && w.reply(n).Ok? && HasError(w.reply(n).value) && BlamesOptions(w, w.reply(n).value)
    && (TrimSpace(opts.workspace) != "" || TrimSpace(opts.agentID) != "")
  }

  function CreateRpcs(w: World, n: nat, step: nat, sessionKey: string, opts: CreateOptions): seq<Rpc> {
    if FallsBack(w, n, opts) then [CreateRequest(step, sessionKey, opts), FallbackRequest(step, sessionKey)]
    else [CreateRequest(step, sessionKey, opts)]
  }

  /** The last answer alone decides how a create ends. */
  function CreateResult(w: World, n: nat, step: nat, sessionKey: string, opts: CreateOptions): Result<Created> {
    match w.reply(if FallsBack(w, n, opts) then n + 1 else n)
    case Err(e) => Err(e)
    case Ok(f) =>
      if HasError(f) then Rejected(w.show(f["error"])) else Finish(f, TrimSpace(sessionKey), RequestId(Create, step))
  }

  /** A create that falls back writes a second request of its own kind of id, with the same session key
      and without the optional parameters the first one carried. */
  lemma FallbackDiffers(w: World, n: nat, step: nat, sessionKey: string, opts: CreateOptions)
    requires FallsBack(w, n, opts)
    ensures var rpcs := CreateRpcs(w, n, step, sessionKey, opts);
      && rpcs[1].id == RequestId(CreateFallback, step) != rpcs[0].id
      && rpcs[1].params.sessionKey == rpcs[0].params.sessionKey && rpcs[1].params != rpcs[0].params
  {
    IdTextInjective(Create, step % COUNTER_SPAN, CreateFallback, step % COUNTER_SPAN);
  }

  /** How a create as a whole ends. It succeeds exactly when the answer to the last request it wrote came,
      reports no error, and either names a key or the caller gave one; the created session then has a
      trimmed, non-empty key, and the request id reported is that of the first request even if the
      second one was answered. */
  lemma CreateSucceedsIff(w: World, n: nat, step: nat, sessionKey: string, opts: CreateOptions)
    ensures var rpcs := CreateRpcs(w, n, step, sessionKey, opts);
      var last, r := w.reply(n + |rpcs| - 1), CreateResult(w, n, step, sessionKey, opts);
      && (r.Ok? <==> last.Ok? && !HasError(last.value) && (NamedKey(last.value) != "" || NotBlank(sessionKey)))
      && (r.Ok? ==> NotBlank(r.value.key) && TrimSpace(r.value.key) == r.value.key && r.value.requestID == rpcs[0].id)
  {
    hide RequestId, FallsBack, NamedKey, NamedSession, TrimSpace, NotBlank, GetString, FallbackRequest;
    NotBlankIsTrim(sessionKey);
    TrimSpaceIdempotent(sessionKey);
    var rpcs := CreateRpcs(w, n, step, sessionKey, opts);
    var last := w.reply(n + |rpcs| - 1);
    if last.Ok? {
      NamedKeyTrimmed(last.value);
      NotBlankIsTrim(NamedKey(last.value));
      NotBlankIsTrim(TrimSpace(sessionKey));
    }
  }

  lemma NamedKeyTrimmed(f: Frame)
    ensures TrimSpace(NamedKey(f)) == NamedKey(f)
  {
    assert TrimSpace("") == "" by { TrimFixed("", IsSpace); }
    hide TrimSpace, GetString, GetMap;
    GetStringTrimmed(GetMap(f, "result"), "key");
    GetStringTrimmed(GetMap(f, "result"), "sessionKey");
    GetStringTrimmed(f, "key");
    GetStringTrimmed(f, "sessionKey");
  }

  lemma GetStringTrimmed(f: Frame, key: string)
    ensures TrimSpace(GetString(f, key)) == GetString(f, key)
  {
    TrimFixed(GetString(f, key), IsSpace);
  }

  // ----- the send handler -----

  datatype Body = Body(
    sessionKey: string, agentID: string, customerID: string, workspace: string, message: string,
    createSession: bool, callbackURL: string, stream: Option<bool>, dedupeKey: string)

  /** A request as it arrives: None is a body that is not JSON. */
  datatype HttpRequest = HttpRequest(isPost: bool, body: Option<Body>, idempotencyHeader: string)

  datatype Response =
    | MethodNotAllowed | BadJson | SessionKeyRequired | MessageRequired | BadCallback | DuplicateOk
    | SentOk(requestID: string) | GatewayFailed(e: Error)

  datatype Env = Env(now: int, register: Fault, persist: Fault)

  /** The kind of an inbound dedupe row. */
  const INBOUND: string := "inbound"

  function SessionKeyOf(digest: string -> string, b: Body): string {
    ResolveSessionKey(digest, b.sessionKey, b.agentID, b.customerID, b.workspace, "")
  }

  function DedupeKeyOf(r: HttpRequest): string
    requires r.body.Some?
  {
    if TrimSpace(r.body.value.dedupeKey) != "" then TrimSpace(r.body.value.dedupeKey)
    else TrimSpace(r.idempotencyHeader)
  }

  predicate SaysNotFound(e: Error) { Contains(ToLower(e.text), "session not found") }

  /** What is refused before anything is touched. */
  function Refusal(digest: string -> string, r: HttpRequest): Option<Response> {
    if !r.isPost then Some(MethodNotAllowed)
    else if r.body.None? then Some(BadJson)
    else if SessionKeyOf(digest, r.body.value) == "" then Some(SessionKeyRequired)
    else if TrimSpace(r.body.value.message) == "" then Some(MessageRequired)
    else None
  }

  /** The delivery settings and the dedupe table after the local part of a request, and its answer if
      that part already gives one. */
  function Admit(digest: string -> string, ttl: int, mem: Memory, r: HttpRequest, env: Env)
    : (Memory, Option<Response>)
  {
    if Refusal(digest, r).Some? then (mem, Refusal(digest, r))
    else
      var b := r.body.value;
      var session, dedupe, url := SessionKeyOf(digest, b), DedupeKeyOf(r), TrimSpace(b.callbackURL);
      var key := InboundKey(session, dedupe);
      var noted := if dedupe == "" then mem
        else mem.(tables := mem.tables.Insert(INBOUND, key, ttl, env.now, env.register));
      if dedupe != "" && mem.tables.IsNew(key, env.register) == Some(false) then (noted, Some(DuplicateOk))
      else if !CallbackOk(url) then (noted, Some(BadCallback))
      else (noted.Put(session, url, b.stream != Some(false), env.now, env.now, env.persist), None)
  }

  function OptionsOf(b: Body): CreateOptions { CreateOptions(TrimSpace(b.workspace), TrimSpace(b.agentID)) }

  /** The remote part: what is written to the gateway from the n-th call on, and the answer. */
  function Forward(w: World, n: nat, step: nat, session: string, b: Body): (seq<Rpc>, Response) {
    var id := RequestId(Send, step + 1);
    var first := Rpc(id, SendParams(session, b.message));
    match SendError(w, n)
    case None => ([first], SentOk(id))
    case Some(e) =>
      if !b.createSession || !SaysNotFound(e) then ([first], GatewayFailed(e))
      else
        var creates := CreateRpcs(w, n + 1, step + 2, session, OptionsOf(b));
        var made := CreateResult(w, n + 1, step + 2, session, OptionsOf(b));
        if made.Err? then ([first] + creates, GatewayFailed(made.error))
        else
          var again := RequestId(Send, step + 3);
          match SendError(w, n + 1 + |creates|)
          case None => ([first] + creates + [Rpc(again, SendParams(session, b.message))], SentOk(again))
          case Some(e2) => ([first] + creates + [Rpc(again, SendParams(session, b.message))], GatewayFailed(e2))
  }

  class Server {
    const app: App
    const gateway: Gateway
    const digest: string -> string

    constructor (app: App, gateway: Gateway, digest: string -> string)
      ensures this.app == app && this.gateway == gateway && this.digest == digest
    {
      this.app, this.gateway, this.digest := app, gateway, digest;
    }

    method HandleSend(r: HttpRequest, env: Env) returns (resp: Response)
      modifies app`delivery, app.store`sessions, app.store`dedupe, gateway`step, gateway`log
      ensures app.Model() == Admit(digest, app.cfg.dedupeTTL, old(app.Model()), r, env).0
      ensures var local := Admit(digest, app.cfg.dedupeTTL, old(app.Model()), r, env).1;
        if local.Some? then resp == local.value && gateway.log == old(gateway.log) && gateway.step == old(gateway.step)
        else
          var (rpcs, answer) := Forward(gateway.world, |old(gateway.log)|, old(gateway.step),
            SessionKeyOf(digest, r.body.value), r.body.value);
          resp == answer && gateway.log == old(gateway.log) + rpcs
    {
      if !r.isPost { return MethodNotAllowed; }
      if r.body.None? { return BadJson; }
      var b := r.body.value;
      var session := ResolveSessionKey(digest, b.sessionKey, b.agentID, b.customerID, b.workspace, "");
      if session == "" { return SessionKeyRequired; }
      if TrimSpace(b.message) == "" { return MessageRequired; }
      var dedupe := TrimSpace(b.dedupeKey);
      if dedupe == "" { dedupe := TrimSpace(r.idempotencyHeader); }
      if dedupe != "" {
        var key := InboundKey(session, dedupe);
        var isNew := app.store.RegisterDedupeKey(INBOUND, key, app.cfg.dedupeTTL, env.now, env.register);
        if isNew == Some(false) { return DuplicateOk; }
      }
      var url := TrimSpace(b.callbackURL);
      if url != "" {
        if !HasPrefix(ToLower(url), "http://") && !HasPrefix(ToLower(url), "https://") { return BadCallback; }
      }
      var stream := true;
      if b.stream.Some? { stream := b.stream.value; }
      app.SetSessionDelivery(session, url, stream, None, env.now, env.persist);
      resp := ForwardMessage(session, b);
    }

    /** The rest of the handler: send, and on a missing session create and send once more. */
    method ForwardMessage(session: string, b: Body) returns (resp: Response)
      modifies gateway`step, gateway`log
      ensures var (rpcs, answer) := Forward(gateway.world, |old(gateway.log)|, old(gateway.step), session, b);
        resp == answer && gateway.log == old(gateway.log) + rpcs
    {
      hide RequestId, CreateRpcs, CreateResult, SendError, Contains, ToLower, TrimSpace;
      ghost var w, n, step, log := gateway.world, |gateway.log|, gateway.step, gateway.log;
      var requestID, err := gateway.SendSessionMessage(session, b.message);
      ghost var first := Rpc(requestID, SendParams(session, b.message));
      assert err == SendError(w, n) && |gateway.log| == n + 1;
      if err.Some? && b.createSession && Contains(ToLower(err.value.text), "session not found") {
        var made := gateway.CreateSession(session, OptionsOf(b));
        ghost var creates := CreateRpcs(w, n + 1, step + 2, session, OptionsOf(b));
        assert gateway.log == log + ([first] + creates);
        if made.Err? { return GatewayFailed(made.error); }
        requestID, err := gateway.SendSessionMessage(session, b.message);
        assert gateway.log == log + ([first] + creates + [Rpc(requestID, SendParams(session, b.message))]);
      }
      if err.Some? { return GatewayFailed(err.value); }
      resp := SentOk(requestID);
    }
  }

  // ----- what one request does -----

  predicate IsSend(x: Rpc) { x.params.SendParams? }

  function Sends(rpcs: seq<Rpc>): nat {
    if rpcs == [] then 0 else (if IsSend(rpcs[0]) then 1 else 0) + Sends(rpcs[1..])
  }

  lemma {:induction false} SendsConcat(a: seq<Rpc>, b: seq<Rpc>)
    ensures Sends(a + b) == Sends(a) + Sends(b)
  {
    if a == [] {
      assert a + b == b;
    } else {
      assert (a + b)[1..] == a[1..] + b;
      SendsConcat(a[1..], b);
    }
  }

  /** The n-th remote call, a send, finds no session. */
  predicate FindsNone(w: World, n: nat) { SendError(w, n).Some? && SaysNotFound(SendError(w, n).value) }

  /** The course of the remote part. It writes at most two sends and two creates. Creates are written exactly
      when the first send failed with "session not found" and the request asked for creation, and a second
      send, which comes last, exactly when a create then succeeded. The answer is success exactly when the
      last thing written was a send and the gateway accepted it, and it names that send; otherwise it passes
      on the error of the last thing tried. */
  lemma ForwardWritesLittle(w: World, n: nat, step: nat, session: string, b: Body)
    ensures var (rpcs, answer) := Forward(w, n, step, session, b);
      var missing := b.createSession && FindsNone(w, n);
      var made := CreateResult(w, n + 1, step + 2, session, OptionsOf(b));
      && 1 <= |rpcs| <= 4 && IsSend(rpcs[0]) && Sends(rpcs) <= 2 && |rpcs| - Sends(rpcs) <= 2
      && (|rpcs| > 1 <==> missing) && (|rpcs| > 1 ==> !IsSend(rpcs[1]))
      && (Sends(rpcs) == 2 <==> missing && made.Ok?)
      && (IsSend(rpcs[|rpcs| - 1]) <==> missing ==> made.Ok?)
      && (answer.SentOk? <==> IsSend(rpcs[|rpcs| - 1]) && SendError(w, n + |rpcs| - 1).None?)
      && (answer.SentOk? ==> answer.requestID == rpcs[|rpcs| - 1].id)
      && (!answer.SentOk? ==>
            && answer.GatewayFailed?
            && if IsSend(rpcs[|rpcs| - 1]) then SendError(w, n + |rpcs| - 1) == Some(answer.e)
               else made == Err(answer.e))
      && (forall i :: 0 <= i < |rpcs| && IsSend(rpcs[i]) ==> rpcs[i].params == SendParams(session, b.message))
  {
    hide RequestId, CreateRpcs, CreateResult, SendError, SaysNotFound, TrimSpace;
    var creates := CreateRpcs(w, n + 1, step + 2, session, OptionsOf(b));
    var first := Rpc(RequestId(Send, step + 1), SendParams(session, b.message));
    var again := Rpc(RequestId(Send, step + 3), SendParams(session, b.message));
    CreatesAreNoSends(w, n + 1, step + 2, session, OptionsOf(b));
    SendsConcat([first], creates);
    SendsConcat([first] + creates, [again]);
  }

  lemma CreatesAreNoSends(w: World, n: nat, step: nat, session: string, opts: CreateOptions)
    ensures var rpcs := CreateRpcs(w, n, step, session, opts);
      1 <= |rpcs| <= 2 && Sends(rpcs) == 0 && forall i :: 0 <= i < |rpcs| ==> !IsSend(rpcs[i])
  {
    var a, b := CreateRequest(step, session, opts), FallbackRequest(step, session);
    SendsConcat([a], [b]);
    assert Sends([a]) == 0 && Sends([b]) == 0;
    assert [a] + [b] == [a, b];
  }

  /** A request is answered as a duplicate exactly when it is valid, has a dedupe key, and a working store
      already has that key for its session: a disabled or failing store lets every repetition through. */
  lemma DuplicateIff(digest: string -> string, ttl: int, mem: Memory, r: HttpRequest, env: Env)
    ensures Admit(digest, ttl, mem, r, env).1 == Some(DuplicateOk) <==>
      (&& Refusal(digest, r).None? && DedupeKeyOf(r) != ""
       && mem.tables.enabled && env.register.Healthy?
       && InboundKey(SessionKeyOf(digest, r.body.value), DedupeKeyOf(r)) in mem.tables.dedupe)
  {
    if Refusal(digest, r).None? {
      PrefixesApart(SessionKeyOf(digest, r.body.value), DedupeKeyOf(r), "");
    }
  }

  predicate SameKeys(digest: string -> string, r: HttpRequest, r': HttpRequest) {
    && Refusal(digest, r).None? && Refusal(digest, r').None?
    && SessionKeyOf(digest, r'.body.value) == SessionKeyOf(digest, r.body.value)
    && DedupeKeyOf(r') == DedupeKeyOf(r) != ""
  }

  /** A repetition right after a first attempt is refused exactly when the store works now, and worked then
      at least as far as the insert or had the key before. How the first attempt ended, with a bad
      callback address, a gateway failure or success, makes no difference. */
  lemma RepeatRefusedIff(
    digest: string -> string, ttl: int, mem: Memory, r: HttpRequest, env: Env, r': HttpRequest, env': Env)
    requires SameKeys(digest, r, r')
    ensures Admit(digest, ttl, Admit(digest, ttl, mem, r, env).0, r', env').1 == Some(DuplicateOk) <==>
      (&& mem.tables.enabled && env'.register.Healthy?
       && (env.register != Broken(false)
           || InboundKey(SessionKeyOf(digest, r.body.value), DedupeKeyOf(r)) in mem.tables.dedupe))
  {
    PrefixesApart(SessionKeyOf(digest, r.body.value), DedupeKeyOf(r), "");
    DuplicateIff(digest, ttl, Admit(digest, ttl, mem, r, env).0, r', env');
  }

  /** One attempt per key: once a request with a dedupe key has got past validation on a healthy store,
      whatever became of it afterwards (a bad callback address, a gateway failure, a success), every
      later request with the same session and dedupe key is answered as a duplicate and writes nothing,
      at any time. */
  lemma OneAttemptPerKey(
    digest: string -> string, ttl: int, mem: Memory, r: HttpRequest, env: Env, r': HttpRequest, env': Env, mem': Memory)
    requires mem.tables.enabled && env.register == Healthy && env'.register == Healthy
    requires SameKeys(digest, r, r')
    // in between anything may happen to the tables but a cleanup
    requires var after := Admit(digest, ttl, mem, r, env).0.tables;
      mem'.tables.enabled && forall k :: k in after.dedupe ==> k in mem'.tables.dedupe
    ensures Admit(digest, ttl, mem', r', env') == (mem', Some(DuplicateOk))
  {
    var session, dedupe := SessionKeyOf(digest, r.body.value), DedupeKeyOf(r);
    var key := InboundKey(session, dedupe);
    PrefixesApart(session, dedupe, "");
    var noted := mem.tables.Insert(INBOUND, key, ttl, env.now, env.register);
    assert key in noted.dedupe;
    assert key in mem'.tables.dedupe;
  }
}
