/** What the send endpoint promises, in terms of the request's own fields and the gateway's own frames
    (internal/httpapi/server.go, internal/wsclient/client.go): where the dedupe key comes from, what is
    refused, which setting is stored, what a create carries and when one is tried. */
module SendLaws {
  import opened GoText
  import opened Frames
  import opened Storage
  import opened Delivery
  import opened SessionKeys
  import opened RequestIds
  import opened Inbound

  // ----- the dedupe key -----

  /** The key of a request is its body's, and its header's only when the body has none; neither counts
      when it is blank. */
  function KeyText(r: HttpRequest): string
    requires r.body.Some?
  {
    if NotBlank(r.body.value.dedupeKey) then TrimSpace(r.body.value.dedupeKey)
    else if NotBlank(r.idempotencyHeader) then TrimSpace(r.idempotencyHeader)
    else ""
  }

  lemma KeyTextIsUsed(r: HttpRequest)
    requires r.body.Some?
    ensures DedupeKeyOf(r) == KeyText(r)
    ensures KeyText(r) == "" <==> !NotBlank(r.body.value.dedupeKey) && !NotBlank(r.idempotencyHeader)
  {
    NotBlankIsTrim(r.body.value.dedupeKey);
    NotBlankIsTrim(r.idempotencyHeader);
  }

  /** On a working store a valid request leaves exactly one row, under its session and key, and none
      exactly when body key and header are both blank. */
  lemma RecordsKey(digest: string -> string, ttl: int, mem: Memory, r: HttpRequest, env: Inbound.Env)
    requires Refusal(digest, r).None? && mem.tables.enabled && env.register.Healthy?
    ensures Admit(digest, ttl, mem, r, env).0.tables.dedupe ==
      if !NotBlank(r.body.value.dedupeKey) && !NotBlank(r.idempotencyHeader) then mem.tables.dedupe
      else InsertIfAbsent(mem.tables.dedupe, InboundKey(SessionKeyOf(digest, r.body.value), KeyText(r)),
             Row(INBOUND, env.now + ttl))
  {
    hide *;
    ValidHasBody(digest, r);
    KeyTextIsUsed(r);
    AdmitRecords(digest, ttl, mem, r, env);
  }

  lemma InboundNotBlank(session: string, key: string)
    ensures NotBlank(InboundKey(session, key))
  {
    PrefixesApart(session, key, "");
  }

  lemma Inserted(t: Tables, kind: string, session: string, dedupe: string, ttl: int, now: int, f: Fault)
    requires t.enabled && f.Healthy?
    ensures t.Insert(kind, InboundKey(session, dedupe), ttl, now, f).dedupe ==
      InsertIfAbsent(t.dedupe, InboundKey(session, dedupe), Row(kind, now + ttl))
  {
    InboundNotBlank(session, dedupe);
    hide InboundKey, NotBlank;
  }

  lemma AdmitRecords(digest: string -> string, ttl: int, mem: Memory, r: HttpRequest, env: Inbound.Env)
    requires Refusal(digest, r).None? && mem.tables.enabled && env.register.Healthy?
    ensures Admit(digest, ttl, mem, r, env).0.tables.dedupe ==
      if DedupeKeyOf(r) == "" then mem.tables.dedupe
      else InsertIfAbsent(mem.tables.dedupe, InboundKey(SessionKeyOf(digest, r.body.value), DedupeKeyOf(r)),
             Row(INBOUND, env.now + ttl))
  {
    hide *;
    ValidHasBody(digest, r);
    AdmitInserts(digest, ttl, mem, r, env);
    Inserted(mem.tables, INBOUND, SessionKeyOf(digest, r.body.value), DedupeKeyOf(r), ttl, env.now, env.register);
  }

  lemma ValidHasBody(digest: string -> string, r: HttpRequest)
    requires Refusal(digest, r).None?
    ensures r.body.Some?
  {
    hide SessionKeyOf, TrimSpace;
  }

  lemma AdmitInserts(digest: string -> string, ttl: int, mem: Memory, r: HttpRequest, env: Inbound.Env)
    requires Refusal(digest, r).None?
    ensures var key := InboundKey(SessionKeyOf(digest, r.body.value), DedupeKeyOf(r));
      Admit(digest, ttl, mem, r, env).0.tables.dedupe ==
        if DedupeKeyOf(r) == "" then mem.tables.dedupe
        else mem.tables.Insert(INBOUND, key, ttl, env.now, env.register).dedupe
  {
    hide TrimSpace, SessionKeyOf, CallbackOk, InboundKey, DedupeKeyOf, Tables.Insert, Tables.IsNew, Refusal;
  }

  /** A request without a key is never a duplicate and leaves no row, whatever the store does. */
  lemma NoKeyNoDedupe(digest: string -> string, ttl: int, mem: Memory, r: HttpRequest, env: Inbound.Env)
    requires r.body.Some? && !NotBlank(r.body.value.dedupeKey) && !NotBlank(r.idempotencyHeader)
    ensures Admit(digest, ttl, mem, r, env).1 != Some(DuplicateOk)
    ensures Admit(digest, ttl, mem, r, env).0.tables.dedupe == mem.tables.dedupe
  {
    KeyTextIsUsed(r);
    hide TrimSpace, NotBlank, SessionKeyOf, CallbackOk;
  }

  /** Two valid requests of one session without body keys but with the same header: on a working store the
      second is a duplicate, and touches nothing. */
  lemma HeaderDedupes(
    digest: string -> string, ttl: int, mem: Memory, r: HttpRequest, env: Inbound.Env, r': HttpRequest,
    env': Inbound.Env)
    requires Refusal(digest, r).None? && Refusal(digest, r').None?
    requires mem.tables.enabled && env.register.Healthy? && env'.register.Healthy?
    requires !NotBlank(r.body.value.dedupeKey) && !NotBlank(r'.body.value.dedupeKey)
    requires NotBlank(r.idempotencyHeader) && TrimSpace(r'.idempotencyHeader) == TrimSpace(r.idempotencyHeader)
    requires SessionKeyOf(digest, r'.body.value) == SessionKeyOf(digest, r.body.value)
    ensures var mem' := Admit(digest, ttl, mem, r, env).0;
      Admit(digest, ttl, mem', r', env') == (mem', Some(DuplicateOk))
  {
    KeyTextIsUsed(r);
    KeyTextIsUsed(r');
    NotBlankIsTrim(r.idempotencyHeader);
    NotBlankIsTrim(r'.idempotencyHeader);
    OneAttemptPerKey(digest, ttl, mem, r, env, r', env', Admit(digest, ttl, mem, r, env).0);
  }

  /** A body key decides, whatever the headers say: the same for two requests with the same body key, and
      one request is treated alike under all headers. */
  lemma BodyKeyDecides(
    digest: string -> string, ttl: int, mem: Memory, r: HttpRequest, env: Inbound.Env,
    r': HttpRequest, env': Inbound.Env, header: string)
    requires Refusal(digest, r).None? && Refusal(digest, r').None?
    requires mem.tables.enabled && env.register.Healthy? && env'.register.Healthy?
    requires NotBlank(r.body.value.dedupeKey) && TrimSpace(r'.body.value.dedupeKey) == TrimSpace(r.body.value.dedupeKey)
    requires SessionKeyOf(digest, r'.body.value) == SessionKeyOf(digest, r.body.value)
    ensures Admit(digest, ttl, mem, r.(idempotencyHeader := header), env) == Admit(digest, ttl, mem, r, env)
    ensures var mem' := Admit(digest, ttl, mem, r, env).0;
      Admit(digest, ttl, mem', r', env') == (mem', Some(DuplicateOk))
  {
    KeyTextIsUsed(r);
    KeyTextIsUsed(r');
    KeyTextIsUsed(r.(idempotencyHeader := header));
    NotBlankIsTrim(r.body.value.dedupeKey);
    NotBlankIsTrim(r'.body.value.dedupeKey);
    OneAttemptPerKey(digest, ttl, mem, r, env, r', env', Admit(digest, ttl, mem, r, env).0);
    hide TrimSpace, NotBlank, ResolveSessionKey, CallbackOk;
  }

  // ----- what is refused, and what is stored -----

  /** A request is valid exactly when it is a POST with a JSON body that has a message and names a session. */
  lemma ValidIff(digest: string -> string, r: HttpRequest)
    ensures Refusal(digest, r).None? <==>
      && r.isPost && r.body.Some? && NotBlank(r.body.value.message)
      && var b := r.body.value;
         || NotBlank(b.sessionKey)
         || (SanitizeID(b.agentID) != "" && SanitizeID(b.customerID) != "")
         || NotBlank(b.workspace)
  {
    if r.body.Some? {
      var b := r.body.value;
      NotBlankIsTrim(b.message);
      ResolveWithoutFallback(digest, b.sessionKey, b.agentID, b.customerID, b.workspace);
    }
  }

  /** And which refusal it is otherwise: the first of four things that is wrong. */
  lemma RefusedFor(digest: string -> string, r: HttpRequest)
    ensures var refusal := Refusal(digest, r);
      && (!r.isPost ==> refusal == Some(MethodNotAllowed))
      && (r.isPost && r.body.None? ==> refusal == Some(BadJson))
      && (r.isPost && r.body.Some? ==>
            var named := SessionKeyOf(digest, r.body.value) != "";
            && (refusal == Some(SessionKeyRequired) <==> !named)
            && (refusal == Some(MessageRequired) <==> named && !NotBlank(r.body.value.message)))
  {
    if r.body.Some? { NotBlankIsTrim(r.body.value.message); }
    hide SessionKeyOf, NotBlank, TrimSpace;
  }

  /** A valid request that is no duplicate and names an acceptable callback address or none stores its own
      setting, with streaming unless it says otherwise, for its own session; any other request leaves all
      settings alone. */
  lemma StoresItsSetting(digest: string -> string, ttl: int, mem: Memory, r: HttpRequest, env: Inbound.Env)
    requires HexDigest(digest) && r.body.Some?
    ensures var (after, answer) := Admit(digest, ttl, mem, r, env);
      var b, session := r.body.value, SessionKeyOf(digest, r.body.value);
      var setting := Session(TrimSpace(b.callbackURL), match b.stream case Some(on) => on case None => true, env.now);
      && (answer.None? <==>
            Refusal(digest, r).None? && answer != Some(DuplicateOk) && CallbackOk(TrimSpace(b.callbackURL)))
      && if answer.None? then
        && after.cache == mem.cache[session := setting]
        && (mem.tables.enabled && env.persist.Healthy? ==>
            after.tables.sessions == mem.tables.sessions[session := setting])
      else after.cache == mem.cache && after.tables.sessions == mem.tables.sessions
  {
    var b := r.body.value;
    ResolveFixedPoint(digest, b.sessionKey, b.agentID, b.customerID, b.workspace, "", "", "", "", "");
    hide TrimSpace, NotBlank, ResolveSessionKey, CallbackOk, InboundKey, DedupeKeyOf, Tables.IsNew;
  }

  /** The session a request is for, by its own fields. */
  lemma SessionIs(digest: string -> string, b: Body)
    ensures var session := SessionKeyOf(digest, b);
      && (NotBlank(b.sessionKey) ==> session == TrimSpace(b.sessionKey))
      && (!NotBlank(b.sessionKey) && SanitizeID(b.agentID) != "" && SanitizeID(b.customerID) != "" ==>
            session == SanitizeID(b.agentID) + ":" + SanitizeID(b.customerID))
      && (!NotBlank(b.sessionKey) && (SanitizeID(b.agentID) == "" || SanitizeID(b.customerID) == "") ==>
            NotBlank(b.workspace) ==> session == "workspace:" + digest(TrimSpace(ToLower(b.workspace))))
  {
    ResolvePriority(digest, b.sessionKey, b.agentID, b.customerID, b.workspace, "");
    hide ResolveSessionKey, SanitizeID, TrimSpace;
  }

  // ----- phrases in error texts -----

  /** The phrase, in small letters, occurs in the text in any case. */
  ghost predicate Mentions(text: string, phrase: string) {
    exists i :: 0 <= i <= |text| - |phrase| && MentionedAt(text, phrase, i)
  }

  predicate MentionedAt(text: string, phrase: string, i: int)
    requires 0 <= i <= |text| - |phrase|
  {
    forall j :: 0 <= j < |phrase| ==> LowerChar(text[i + j]) == phrase[j]
  }

  lemma MentionsIff(text: string, phrase: string)
    ensures Contains(ToLower(text), phrase) <==> Mentions(text, phrase)
  {
    var low := ToLower(text);
    forall i | 0 <= i <= |text| - |phrase| ensures GoText.At(low, phrase, i) <==> MentionedAt(text, phrase, i) {
      if MentionedAt(text, phrase, i) { assert low[i..i + |phrase|] == phrase; }
      if GoText.At(low, phrase, i) {
        forall j | 0 <= j < |phrase| ensures LowerChar(text[i + j]) == phrase[j] {
          assert low[i..i + |phrase|][j] == phrase[j];
        }
      }
    }
    if Contains(low, phrase) {
      var i :| 0 <= i <= |low| - |phrase| && GoText.At(low, phrase, i);
      assert MentionedAt(text, phrase, i);
    }
    if Mentions(text, phrase) {
      var i :| 0 <= i <= |text| - |phrase| && MentionedAt(text, phrase, i);
      assert GoText.At(low, phrase, i);
    }
  }

  /** Spaces around a text hide no phrase that begins and ends with something else. */
  lemma MentionsTrimmed(text: string, phrase: string)
    requires phrase != "" && !IsSpace(phrase[0]) && !IsSpace(phrase[|phrase| - 1])
    ensures Mentions(TrimSpace(text), phrase) <==> Mentions(text, phrase)
  {
    var a, b := TrimWindow(text, IsSpace);
    var t := TrimSpace(text);
    if Mentions(t, phrase) {
      var i :| 0 <= i <= |t| - |phrase| && MentionedAt(t, phrase, i);
      assert MentionedAt(text, phrase, a + i);
    }
    if Mentions(text, phrase) {
      var i :| 0 <= i <= |text| - |phrase| && MentionedAt(text, phrase, i);
      var last := i + |phrase| - 1;
      assert LowerChar(text[i + 0]) == phrase[0] && LowerChar(text[i + (|phrase| - 1)]) == phrase[|phrase| - 1];
      assert !IsSpace(text[i]) && !IsSpace(text[last]);
      assert a <= i && last < b;
      assert MentionedAt(t, phrase, i - a);
    }
  }

  lemma SaysNotFoundIff(e: Error)
    ensures SaysNotFound(e) <==> Mentions(e.text, "session not found")
  {
    MentionsIff(e.text, "session not found");
  }

  // ----- what the gateway's answers mean -----

  /** A frame reports no error: nothing stands at `error`, or null. */
  predicate Clean(f: Frame) { Frames.Lookup(Obj(f), ["error"]) in {None, Some(Null)} }

  /** A send succeeds exactly when an answer came and it reports no error. */
  lemma SendSucceedsIff(w: World, n: nat)
    ensures SendError(w, n).None? <==> w.reply(n).Ok? && Clean(w.reply(n).value)
  {
    if w.reply(n).Ok? { ErrorIff(w.reply(n).value, Null); }
  }

  /** A create is tried again exactly when the request named a workspace or an agent and the gateway's error
      calls one of the two an unexpected property, in any case. */
  lemma FallsBackIff(w: World, n: nat, opts: CreateOptions)
    ensures FallsBack(w, n, opts) <==>
      && w.reply(n).Ok? && !Clean(w.reply(n).value) && (NotBlank(opts.workspace) || NotBlank(opts.agentID))
      && var text := w.show(w.reply(n).value["error"]);
         Mentions(text, "unexpected property 'workspace'") || Mentions(text, "unexpected property 'agentid'")
  {
    NotBlankIsTrim(opts.workspace);
    NotBlankIsTrim(opts.agentID);
    if w.reply(n).Ok? {
      var f := w.reply(n).value;
      ErrorIff(f, Null);
      if HasError(f) {
        var text := w.show(f["error"]);
        MentionsIff(TrimSpace(text), "unexpected property 'workspace'");
        MentionsIff(TrimSpace(text), "unexpected property 'agentid'");
        MentionsTrimmed(text, "unexpected property 'workspace'");
        MentionsTrimmed(text, "unexpected property 'agentid'");
      }
    }
  }

  const CREATED_KEY_PATHS := [["result", "key"], ["result", "sessionKey"], ["key"], ["sessionKey"]]
  const CREATED_SESSION_PATHS := [["result", "sessionId"], ["sessionId"], ["result", "entry", "sessionId"]]

  lemma NamedPlaces(f: Frame)
    ensures NamedKey(f) == FirstText(f, CREATED_KEY_PATHS) && NamedSession(f) == FirstText(f, CREATED_SESSION_PATHS)
  {
    PathTwo(f, "result", "key");
    PathTwo(f, "result", "sessionKey");
    PathOne(f, "key");
    PathOne(f, "sessionKey");
    PathTwo(f, "result", "sessionId");
    PathOne(f, "sessionId");
    PathThree(f, "result", "entry", "sessionId");
    hide TextAt, GetString, GetMap;
    TextAtNotBlank(f, ["result", "key"]);
    TextAtNotBlank(f, ["result", "sessionKey"]);
    TextAtNotBlank(f, ["key"]);
    TextAtNotBlank(f, ["sessionKey"]);
    hide NotBlank;
    TwoTexts(GetString(GetMap(f, "result"), "key"), GetString(GetMap(f, "result"), "sessionKey"));
    TwoTexts(GetString(f, "key"), GetString(f, "sessionKey"));
    hide FirstNonEmpty, FirstText;
    FourTexts(f, ["result", "key"], ["result", "sessionKey"], ["key"], ["sessionKey"]);
    ThreeInTurn(f, ["result", "sessionId"], ["sessionId"], ["result", "entry", "sessionId"]);
  }

  lemma TwoTexts(x: string, y: string)
    requires (x != "" <==> NotBlank(x)) && (y != "" <==> NotBlank(y))
    ensures FirstNonEmpty([x, y]) == if x != "" then x else y
  {
    assert [x, y][1..] == [y] && [y][1..] == [];
  }

  lemma FourTexts(f: Frame, a: seq<string>, b: seq<string>, c: seq<string>, d: seq<string>)
    ensures FirstText(f, [a, b, c, d]) ==
      if TextAt(f, a) != "" then TextAt(f, a) else if TextAt(f, b) != "" then TextAt(f, b)
      else if TextAt(f, c) != "" then TextAt(f, c) else TextAt(f, d)
  {
    FirstTextOne(f, a, [b, c, d]);
    assert [a] + [b, c, d] == [a, b, c, d];
    hide FirstText, TextAt;
    ThreeInTurn(f, b, c, d);
  }

  lemma ThreeInTurn(f: Frame, a: seq<string>, b: seq<string>, c: seq<string>)
    ensures FirstText(f, [a, b, c]) ==
      if TextAt(f, a) != "" then TextAt(f, a) else if TextAt(f, b) != "" then TextAt(f, b) else TextAt(f, c)
  {
    FirstTextOne(f, c, []);
    FirstTextOne(f, b, [c]);
    FirstTextOne(f, a, [b, c]);
    assert [c] + [] == [c] && [b] + [c] == [b, c] && [a] + [b, c] == [a, b, c] && FirstText(f, []) == "";
    hide FirstText, TextAt;
  }

  /** How a create ends, by the answer to the last request it wrote: it succeeds exactly when that came, is
      clean, and names a key or the caller gave one. The created session has the key named at the first of
      four places, or else the caller's, and the session id found at the first of three. */
  lemma CreateEnds(w: World, n: nat, step: nat, sessionKey: string, opts: CreateOptions)
    ensures var last := w.reply(n + |CreateRpcs(w, n, step, sessionKey, opts)| - 1);
      var r := CreateResult(w, n, step, sessionKey, opts);
      && (r.Ok? <==>
            last.Ok? && Clean(last.value) && (FirstText(last.value, CREATED_KEY_PATHS) != "" || NotBlank(sessionKey)))
      && (r.Ok? ==>
            var named := FirstText(last.value, CREATED_KEY_PATHS);
            && r.value.key == (if named != "" then named else TrimSpace(sessionKey))
            && r.value.sessionID == FirstText(last.value, CREATED_SESSION_PATHS))
  {
    hide *;
    CreateSucceedsIff(w, n, step, sessionKey, opts);
    CreateNames(w, n, step, sessionKey, opts);
    var last := w.reply(n + |CreateRpcs(w, n, step, sessionKey, opts)| - 1);
    if last.Ok? {
      NamedPlaces(last.value);
      CleanIff(last.value);
    }
  }

  lemma CleanIff(f: Frame)
    ensures Clean(f) <==> !HasError(f)
  {
    ErrorIff(f, Null);
  }

  lemma CreateNames(w: World, n: nat, step: nat, sessionKey: string, opts: CreateOptions)
    ensures |CreateRpcs(w, n, step, sessionKey, opts)| > 0
    ensures var last := w.reply(n + |CreateRpcs(w, n, step, sessionKey, opts)| - 1);
      var r := CreateResult(w, n, step, sessionKey, opts);
      r.Ok? ==>
        && last.Ok?
        && r.value.key == (if NamedKey(last.value) != "" then NamedKey(last.value) else TrimSpace(sessionKey))
        && r.value.sessionID == NamedSession(last.value)
  {
    hide RequestId, FallsBack, NamedKey, NamedSession, TrimSpace, FallbackRequest, CreateRequest, HasError;
  }

  /** What a send request has created: the first create names its session, and its own workspace and agent
      wherever they are not blank; a second one names the session alone. */
  lemma CreatesCarryTheRequest(w: World, n: nat, step: nat, session: string, b: Body)
    requires NotBlank(session)
    ensures var rpcs := Forward(w, n, step, session, b).0;
      && (|rpcs| > 1 ==> rpcs[1].params == CreateParams(
            Some(TrimSpace(session)), if NotBlank(b.workspace) then Some(TrimSpace(b.workspace)) else None,
            if NotBlank(b.agentID) then Some(TrimSpace(b.agentID)) else None))
      && (|rpcs| > 2 && rpcs[2].params.CreateParams? ==>
          rpcs[2].params == CreateParams(Some(TrimSpace(session)), None, None))
  {
    hide RequestId, CreateResult, SendError, SaysNotFound, FallsBack, TrimSpace, NotBlank;
    NotBlankIsTrim(session);
    NotBlankIsTrim(b.workspace);
    NotBlankIsTrim(b.agentID);
    TrimSpaceIdempotent(b.workspace);
    TrimSpaceIdempotent(b.agentID);
  }
}
