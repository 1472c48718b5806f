/** The step machine and the sequential handlers agree. A handler or a request that nobody interrupts can
    take, step by step, exactly the course its uninterrupted form describes (here), and takes no other
    (EveryRun). */
module Alone {
  import opened GoText
  import opened Frames
  import opened Storage
  import opened Delivery
  import opened Pipeline
  import SessionKeys
  import Inbound

  function Kept(s: State): Memory { Memory(s.cache, s.tables) }

  /** State s with other settings, and with handler t somewhere else. */
  function With(s: State, mem: Memory, t: int, at: HandlerAt): State
    requires t in s.tasks && s.tasks[t].Handler?
  {
    s.(cache := mem.cache, tables := mem.tables, tasks := s.tasks[t := s.tasks[t].(hat := at)])
  }

  /** A step of task t's own. */
  predicate OfTask(l: Label, t: int) { !FromOutside(l) && l.t == t }

  predicate OnlyTask(run: seq<Label>, t: int) {
    forall i :: 0 <= i < |run| ==> OfTask(run[i], t)
  }

  lemma PlayOn(p: Rules, s0: State, run: seq<Label>, s: State, l: Label)
    requires Play(p, s0, run) == Some(s)
    ensures Play(p, s0, run + [l]) == Next(p, s, l)
  {
    assert (run + [l])[..|run|] == run;
  }

  lemma WithAgain(s: State, mem: Memory, t: int, at: HandlerAt, mem': Memory, at': HandlerAt)
    requires t in s.tasks && s.tasks[t].Handler?
    ensures With(With(s, mem, t, at), mem', t, at') == With(s, mem', t, at')
  {
    var ts := s.tasks[t := s.tasks[t].(hat := at)];
    assert ts[t := ts[t].(hat := at')] == s.tasks[t := s.tasks[t].(hat := at')];
  }

  // ----- a frame handler, step by step -----

  lemma SkipStep(p: Rules, s: State, t: int)
    requires t in s.tasks && s.tasks[t].Handler? && s.tasks[t].hat.Arrived? && !p.passes(s.tasks[t].m)
    ensures Next(p, s, Look(t)) == Some(With(s, Kept(s), t, HandlerEnded))
  {}

  lemma LookSteps(p: Rules, s: State, t: int, f: Fault)
    requires t in s.tasks && s.tasks[t].Handler?
    ensures var at, key := s.tasks[t].hat, p.session(s.tasks[t].m);
      && (at.Arrived? && p.passes(s.tasks[t].m) ==>
          Next(p, s, Look(t)) == Some(With(s, Kept(s), t, if key in s.cache then Aging(s.cache[key]) else Loading)))
      && (at.Aging? ==>
            Next(p, s, CheckAge(t)) ==
              Some(With(s, Kept(s), t, if s.now - at.d.at > p.deliveryTTL then EvictingCache else Decided(at.d))))
      && (at.Loading? ==>
            Next(p, s, Load(t, f)) == Some(With(s, Kept(s), t,
              match s.tables.Lookup(key, f) { case Some(Some(row)) => Filling(row) case _ => Decided(NO_OVERRIDE) })))
  {}

  lemma RefreshSteps(p: Rules, s: State, t: int, f: Fault)
    requires t in s.tasks && s.tasks[t].Handler?
    ensures var at, key := s.tasks[t].hat, p.session(s.tasks[t].m);
      && (at.Filling? ==>
          Next(p, s, Fill(t)) == Some(With(s, Kept(s).(cache := s.cache[key := at.d]), t, Decided(at.d))))
      && (at.EvictingCache? ==>
          Next(p, s, EvictCache(t)) == Some(With(s, Kept(s).(cache := s.cache - {key}), t, EvictingRow)))
      && (at.EvictingRow? ==>
            Next(p, s, EvictRow(t, f)) ==
              Some(With(s, Kept(s).(tables := s.tables.Delete(key, f)), t, Decided(NO_OVERRIDE))))
  {}

  /** The lookup of the delivery settings, taken alone, is the sequential lookup. */
  lemma LookupAlone(p: Rules, s: State, t: int, env: Delivery.Env) returns (run: seq<Label>)
    requires t in s.tasks && s.tasks[t].Handler? && s.tasks[t].hat.Arrived? && p.passes(s.tasks[t].m)
    requires env.now == s.now && p.session(s.tasks[t].m) == TrimSpace(s.tasks[t].m.sessionKey)
    ensures var mem, key := Kept(s), s.tasks[t].m.sessionKey;
      Play(p, s, run) == Some(With(s, mem.AfterGet(key, env.now, p.deliveryTTL, env.look, env.expire), t,
        Decided(mem.Answer(key, env.now, p.deliveryTTL, env.look))))
    ensures OnlyTask(run, t)
  {
    hide Next, TrimSpace;
    var mem, key := Kept(s), p.session(s.tasks[t].m);
    assert Play(p, s, []) == Some(s);
    LookSteps(p, s, t, env.look);
    PlayOn(p, s, [], s, Look(t));
    if key in s.cache {
      var s1 := With(s, mem, t, Aging(s.cache[key]));
      LookSteps(p, s1, t, env.look);
      PlayOn(p, s, [] + [Look(t)], s1, CheckAge(t));
      run := [] + [Look(t)] + [CheckAge(t)];
      if s.now - s.cache[key].at > p.deliveryTTL {
        WithAgain(s, mem, t, Aging(s.cache[key]), mem, EvictingCache);
        run := EvictAlone(p, s, t, env, run);
      } else {
        WithAgain(s, mem, t, Aging(s.cache[key]), mem, Decided(s.cache[key]));
      }
    } else {
      var s1 := With(s, mem, t, Loading);
      LookSteps(p, s1, t, env.look);
      PlayOn(p, s, [] + [Look(t)], s1, Load(t, env.look));
      run := [] + [Look(t)] + [Load(t, env.look)];
      match s.tables.Lookup(key, env.look) {
        case Some(Some(row)) =>
          var s2 := With(s, mem, t, Filling(row));
          WithAgain(s, mem, t, Loading, mem, Filling(row));
          RefreshSteps(p, s2, t, env.expire);
          WithAgain(s, mem, t, Filling(row), mem.(cache := s.cache[key := row]), Decided(row));
          PlayOn(p, s, run, s2, Fill(t));
          run := run + [Fill(t)];
        case _ => WithAgain(s, mem, t, Loading, mem, Decided(NO_OVERRIDE));
      }
    }
  }

  lemma EvictAlone(p: Rules, s: State, t: int, env: Delivery.Env, before: seq<Label>) returns (run: seq<Label>)
    requires t in s.tasks && s.tasks[t].Handler? && Play(p, s, before) == Some(With(s, Kept(s), t, EvictingCache))
    requires OnlyTask(before, t)
    ensures OnlyTask(run, t)
    ensures var key := p.session(s.tasks[t].m);
      Play(p, s, run) ==
        Some(With(s, Memory(s.cache - {key}, s.tables.Delete(key, env.expire)), t, Decided(NO_OVERRIDE)))
  {
    hide Next;
    var key := p.session(s.tasks[t].m);
    var s1 := With(s, Kept(s), t, EvictingCache);
    var mem := Memory(s.cache - {key}, s.tables);
    RefreshSteps(p, s1, t, env.expire);
    WithAgain(s, Kept(s), t, EvictingCache, mem, EvictingRow);
    PlayOn(p, s, before, s1, EvictCache(t));
    var s2 := With(s, mem, t, EvictingRow);
    RefreshSteps(p, s2, t, env.expire);
    WithAgain(s, mem, t, EvictingRow, Memory(s.cache - {key}, s.tables.Delete(key, env.expire)), Decided(NO_OVERRIDE));
    PlayOn(p, s, before + [EvictCache(t)], s2, EvictRow(t, env.expire));
    run := before + [EvictCache(t)] + [EvictRow(t, env.expire)];
  }

  /** Where a handler that is past its lookup with settings d ends up, seen from outside. */
  ghost predicate EndedAs(s: State, s': State, t: int, mem: Memory, offered: Option<string>)
    requires t in s.tasks && s.tasks[t].Handler?
  {
    && Kept(s') == mem && s'.tasks == s.tasks[t := s.tasks[t].(hat := HandlerEnded)]
    && s'.offers == (if offered.Some? then s.offers[t := offered.value] else s.offers)
    && s'.now == s.now && s'.who == s.who && s'.asked == s.asked && s'.sent == s.sent
  }

  lemma AdmitStep(p: Rules, s: State, t: int, f: Fault) returns (s': State)
    requires t in s.tasks && s.tasks[t].Handler? && s.tasks[t].hat.Decided?
    ensures Next(p, s, Pipeline.Admit(t, f)) == Some(s')
    ensures var d, key := s.tasks[t].hat.d, p.outKey(s.tasks[t].m);
      var mem := Kept(s).(tables := s.tables.Insert("outbound", key, p.dedupeTTL, s.now, f));
      if !d.stream && !p.final(s.tasks[t].m) then EndedAs(s, s', t, Kept(s), None)
      else if s.tables.IsNew(key, f) == Some(false) then EndedAs(s, s', t, mem, None)
      else
        && s'.tasks == s.tasks[t := s.tasks[t].(hat := Offering(d))] && Kept(s') == mem
        && s'.offers == s.offers && s'.now == s.now && s'.who == s.who && s'.asked == s.asked && s'.sent == s.sent
  {
    hide Pipeline.Register, Tables.Insert, Tables.IsNew;
    s' := AdmitHandler(p, s, t, s.tasks[t].hat.d, f);
    AdmitIsNext(p, s, t, f);
    hide Next;
    RegisterSeen(s, t, "outbound", p.outKey(s.tasks[t].m), p.dedupeTTL, f);
  }

  lemma AdmitIsNext(p: Rules, s: State, t: int, f: Fault)
    requires t in s.tasks
    ensures s.tasks[t].Handler? && s.tasks[t].hat.Decided? ==>
      Next(p, s, Pipeline.Admit(t, f)) == Some(AdmitHandler(p, s, t, s.tasks[t].hat.d, f))
    ensures s.tasks[t].Request? && s.tasks[t].rat.Received? ==>
      Next(p, s, AdmitIn(t, f)) == Some(AdmitRequest(p, s, t, f))
  {
    hide AdmitHandler, AdmitRequest;
  }

  lemma RegisterSeen(s: State, t: int, kind: string, key: string, ttl: int, f: Fault)
    ensures var (s1, go) := Pipeline.Register(s, t, kind, key, ttl, f);
      && go == (s.tables.IsNew(key, f) != Some(false))
      && Kept(s1) == Kept(s).(tables := s.tables.Insert(kind, key, ttl, s.now, f))
      && s1.tasks == s.tasks && s1.offers == s.offers && s1.now == s.now && s1.who == s.who
      && s1.asked == s.asked && s1.sent == s.sent
  {}

  lemma OfferSteps(p: Rules, s: State, t: int, ok: bool, f: Fault)
    requires t in s.tasks && s.tasks[t].Handler?
    ensures var at, key := s.tasks[t].hat, p.session(s.tasks[t].m);
      && (at.Offering? ==>
            Next(p, s, Offer(t)) == Some(With(
              s.(offers := s.offers[t := Address(p, at.d)]), Kept(s), t, Posting(at.d))))
      && (at.Posting? ==>
            Next(p, s, Posted(t, ok)) ==
              Some(With(s, Kept(s), t, if ok && !at.d.stream && key != "" then ClearingCache else HandlerEnded)))
      && (at.ClearingCache? ==>
          Next(p, s, ClearCache(t)) == Some(With(s, Kept(s).(cache := s.cache - {key}), t, ClearingRow)))
      && (at.ClearingRow? ==>
          Next(p, s, ClearRow(t, f)) == Some(With(s, Kept(s).(tables := s.tables.Delete(key, f)), t, HandlerEnded)))
  {}

  /** Dropping the session after the last event. */
  lemma ClearAlone(p: Rules, s0: State, before: seq<Label>, s: State, t: int, f: Fault) returns (run: seq<Label>)
    requires Play(p, s0, before) == Some(s) && t in s.tasks && s.tasks[t].Handler? && s.tasks[t].hat.ClearingCache?
    ensures OnlyTask(before, t) ==> OnlyTask(run, t)
    ensures var key := p.session(s.tasks[t].m);
      Play(p, s0, run) == Some(With(s, Memory(s.cache - {key}, s.tables.Delete(key, f)), t, HandlerEnded))
  {
    hide Next, Play;
    var key := p.session(s.tasks[t].m);
    var mem := Kept(s).(cache := s.cache - {key});
    var s1 := With(s, mem, t, ClearingRow);
    OfferSteps(p, s, t, true, f);
    PlayOn(p, s0, before, s, ClearCache(t));
    OfferSteps(p, s1, t, true, f);
    PlayOn(p, s0, before + [ClearCache(t)], s1, ClearRow(t, f));
    WithAgain(s, mem, t, ClearingRow, Memory(s.cache - {key}, s.tables.Delete(key, f)), HandlerEnded);
    run := before + [ClearCache(t)] + [ClearRow(t, f)];
  }

  lemma PostAlone(p: Rules, s: State, t: int, ok: bool) returns (run: seq<Label>)
    requires t in s.tasks && s.tasks[t].Handler? && s.tasks[t].hat.Offering?
    ensures OnlyTask(run, t)
    ensures var d, key := s.tasks[t].hat.d, p.session(s.tasks[t].m);
      Play(p, s, run) == Some(With(
        s.(offers := s.offers[t := Address(p, d)]), Kept(s), t,
        if ok && !d.stream && key != "" then ClearingCache else HandlerEnded))
  {
    hide Next;
    var d, mem := s.tasks[t].hat.d, Kept(s);
    assert Play(p, s, []) == Some(s);
    OfferSteps(p, s, t, ok, Healthy);
    PlayOn(p, s, [], s, Offer(t));
    var base := s.(offers := s.offers[t := Address(p, d)]);
    var s1 := With(base, mem, t, Posting(d));
    OfferSteps(p, s1, t, ok, Healthy);
    PlayOn(p, s, [] + [Offer(t)], s1, Posted(t, ok));
    run := [] + [Offer(t)] + [Posted(t, ok)];
    WithAgain(base, mem, t, Posting(d), mem,
      if ok && !d.stream && p.session(s.tasks[t].m) != "" then ClearingCache else HandlerEnded);
  }

  /** From the offer to the end. */
  lemma OfferAlone(p: Rules, s: State, t: int, env: Delivery.Env) returns (run: seq<Label>, s': State)
    requires t in s.tasks && s.tasks[t].Handler? && s.tasks[t].hat.Offering?
    requires p.session(s.tasks[t].m) == TrimSpace(s.tasks[t].m.sessionKey)
    ensures OnlyTask(run, t) && Play(p, s, run) == Some(s')
    ensures var d := s.tasks[t].hat.d;
      EndedAs(s, s', t, if env.posted && !d.stream then Kept(s).Clear(s.tasks[t].m.sessionKey, env.clear) else Kept(s),
        Some(Address(p, d)))
  {
    hide Next, TrimSpace, Play;
    var d, key := s.tasks[t].hat.d, p.session(s.tasks[t].m);
    run := PostAlone(p, s, t, env.posted);
    s' := Play(p, s, run).value;
    if env.posted && !d.stream && key != "" {
      var mem := Memory(s.cache - {key}, s.tables.Delete(key, env.clear));
      var base := s.(offers := s'.offers);
      run := ClearAlone(p, s, run, s', t, env.clear);
      WithAgain(base, Kept(s), t, ClearingCache, mem, HandlerEnded);
      s' := With(base, mem, t, HandlerEnded);
    }
  }

  lemma {:induction false} PlayConcat(p: Rules, s: State, a: seq<Label>, b: seq<Label>)
    requires Play(p, s, a).Some?
    ensures Play(p, s, a + b) == Play(p, Play(p, s, a).value, b)
    decreases |b|
  {
    if b == [] {
      assert a + b == a;
    } else {
      assert (a + b)[..|a + b| - 1] == a + b[..|b| - 1];
      PlayConcat(p, s, a, b[..|b| - 1]);
    }
  }

  /** A handler alone is the sequential handler: from the arrival of a message the machine has a run in
      which only this handler moves, and it ends with the settings and tables of Handled, having offered
      the event exactly to the address Handled names, if any. */
  lemma HandlerAlone(cfg: Config, decode: string -> Option<Frame>, s: State, t: int, env: Delivery.Env)
    returns (run: seq<Label>, s': State)
    requires t in s.tasks && s.tasks[t].Handler? && s.tasks[t].hat.Arrived? && env.now == s.now
    ensures OnlyTask(run, t) && Play(Bridge(cfg, decode), s, run) == Some(s')
    ensures var (mem, out) := Handled(cfg, Kept(s), s.tasks[t].m, env);
      EndedAs(s, s', t, mem, if out.SendFailed? || out.Delivered? then Some(out.url) else None)
  {
    hide Passes, IsFinalEvent, TrimSpace, Memory.Answer, Memory.AfterGet, Memory.Clear, Tables.Insert, Tables.IsNew;
    var p, m := Bridge(cfg, decode), s.tasks[t].m;
    assert Play(p, s, []) == Some(s);
    hide Next, Play;
    if !Passes(cfg, m) {
      SkipStep(p, s, t);
      PlayOn(p, s, [], s, Look(t));
      run, s' := [] + [Look(t)], With(s, Kept(s), t, HandlerEnded);
    } else {
      run := LookupAlone(p, s, t, env);
      run, s' := PastLookup(cfg, decode, s, t, env, run);
    }
  }

  lemma PastLookup(
    cfg: Config, decode: string -> Option<Frame>, s: State, t: int, env: Delivery.Env, before: seq<Label>)
    returns (run: seq<Label>, s': State)
    requires t in s.tasks && s.tasks[t].Handler? && env.now == s.now && Passes(cfg, s.tasks[t].m)
    requires var mem, key := Kept(s), s.tasks[t].m.sessionKey;
      Play(Bridge(cfg, decode), s, before) ==
        Some(With(s, mem.AfterGet(key, env.now, cfg.deliveryTTL, env.look, env.expire), t,
          Decided(mem.Answer(key, env.now, cfg.deliveryTTL, env.look))))
    requires OnlyTask(before, t)
    ensures OnlyTask(run, t) && Play(Bridge(cfg, decode), s, run) == Some(s')
    ensures var (mem, out) := Handled(cfg, Kept(s), s.tasks[t].m, env);
      EndedAs(s, s', t, mem, if out.SendFailed? || out.Delivered? then Some(out.url) else None)
  {
    hide Next, Passes, IsFinalEvent, TrimSpace, Memory.Answer, Memory.AfterGet, Memory.Clear, Tables.Insert,
      Tables.IsNew;
    var p, m := Bridge(cfg, decode), s.tasks[t].m;
    var x := Play(p, s, before).value;
    s' := AdmitStep(p, x, t, env.register);
    PlayOn(p, s, before, x, Pipeline.Admit(t, env.register));
    run := before + [Pipeline.Admit(t, env.register)];
    if s'.tasks[t].hat.Offering? {
      var rest;
      ghost var y := s';
      rest, s' := OfferAlone(p, y, t, env);
      PlayConcat(p, s, run, rest);
      run := run + rest;
    }
  }

  // ----- a send request, step by step -----

  function WithReq(s: State, mem: Memory, t: int, at: RequestAt): State
    requires t in s.tasks && s.tasks[t].Request?
  {
    s.(cache := mem.cache, tables := mem.tables, tasks := s.tasks[t := s.tasks[t].(rat := at)])
  }

  /** What the machine keeps of a request body that passed validation. */
  function Validated(digest: string -> string, r: Inbound.HttpRequest): SendRequest
    requires r.body.Some?
  {
    var b := r.body.value;
    SendRequest(Inbound.SessionKeyOf(digest, b), Inbound.DedupeKeyOf(r), TrimSpace(b.callbackURL),
      b.stream != Some(false), b.createSession)
  }

  function WhereLeft(answer: Option<Inbound.Response>): RequestAt {
    match answer
    case None => Sending
    case Some(DuplicateOk) => Answered(Pipeline.DuplicateOk)
    case Some(_) => Answered(Pipeline.BadCallback)
  }

  lemma StoreSteps(p: Rules, s: State, t: int, f: Fault)
    requires t in s.tasks && s.tasks[t].Request?
    ensures var at, r := s.tasks[t].rat, s.tasks[t].r;
      var key := p.home(r);
      && (at.Caching? ==>
            Next(p, s, StoreCache(t)) == Some(WithReq(s.(asked := Noted(s, key, t)),
              Kept(s).(cache := s.cache[key := Session(r.callbackUrl, r.stream, s.now)]), t, Persisting)))
      && (at.Persisting? ==>
            Next(p, s, StoreRow(t, f)) == Some(WithReq(s,
              Kept(s).(tables := s.tables.Upsert(key, r.callbackUrl, r.stream, s.now, f)), t, Sending)))
  {}

  /** The local part of a request alone is the sequential one: the settings and tables of Admit, and the
      request answered as Admit answers it or about to send. */
  lemma RequestAlone(
    cfg: Config, decode: string -> Option<Frame>, digest: string -> string, s: State, t: int, r: Inbound.HttpRequest,
    env: Inbound.Env)
    returns (run: seq<Label>, s': State)
    requires SessionKeys.HexDigest(digest) && Inbound.Refusal(digest, r).None? && env.now == s.now
    requires t in s.tasks && s.tasks[t] == Request(Validated(digest, r), Received)
    ensures OnlyTask(run, t) && Play(Bridge(cfg, decode), s, run) == Some(s')
    ensures var (mem, answer) := Inbound.Admit(digest, cfg.dedupeTTL, Kept(s), r, env);
      && Kept(s') == mem && t in s'.tasks && s'.tasks == s.tasks[t := Request(Validated(digest, r), WhereLeft(answer))]
      && s'.offers == s.offers && s'.sent == s.sent
  {
    hide Next, TrimSpace, Pipeline.Register, Tables.Insert, Tables.IsNew, Tables.Upsert;
    hide SessionKeys.InboundKey, SessionKeys.CallbackOk, SessionKeys.ResolveSessionKey;
    var p, req := Bridge(cfg, decode), s.tasks[t].r;
    assert Play(p, s, []) == Some(s);
    AdmitIsNext(p, s, t, env.register);
    PlayOn(p, s, [], s, AdmitIn(t, env.register));
    RegisterSeen(s, t, "inbound", p.inKey(req), p.dedupeTTL, env.register);
    var b := r.body.value;
    SessionKeys.ResolveFixedPoint(digest, b.sessionKey, b.agentID, b.customerID, b.workspace, "", "", "", "", "");
    run, s' := [] + [AdmitIn(t, env.register)], AdmitRequest(p, s, t, env.register);
    if s'.tasks[t].rat.Caching? {
      run, s' := StoreAlone(p, s, run, s', t, env.persist);
    }
  }

  lemma StoreAlone(p: Rules, s0: State, before: seq<Label>, s: State, t: int, f: Fault)
    returns (run: seq<Label>, s': State)
    requires Play(p, s0, before) == Some(s) && t in s.tasks && s.tasks[t].Request? && s.tasks[t].rat.Caching?
    ensures Play(p, s0, run) == Some(s') && (OnlyTask(before, t) ==> OnlyTask(run, t))
    ensures var r := s.tasks[t].r;
      && Kept(s') == Memory(s.cache[p.home(r) := Session(r.callbackUrl, r.stream, s.now)],
           s.tables.Upsert(p.home(r), r.callbackUrl, r.stream, s.now, f))
      && s'.tasks == s.tasks[t := Request(r, Sending)] && s'.offers == s.offers && s'.sent == s.sent
  {
    hide Next, Play;
    StoreSteps(p, s, t, f);
    PlayOn(p, s0, before, s, StoreCache(t));
    var s1 := Next(p, s, StoreCache(t)).value;
    StoreSteps(p, s1, t, f);
    PlayOn(p, s0, before + [StoreCache(t)], s1, StoreRow(t, f));
    run := before + [StoreCache(t)] + [StoreRow(t, f)];
    s' := Next(p, s1, StoreRow(t, f)).value;
  }

  function HowSent(e: Option<Inbound.Error>): SendResult {
    match e
    case None => Accepted
    case Some(e) => if Inbound.SaysNotFound(e) then SessionNotFound else Pipeline.Rejected
  }

  ghost predicate AnsweredAs(s: State, s': State, t: int, accepted: bool)
    requires t in s.tasks && s.tasks[t].Request?
  {
    && Kept(s') == Kept(s)
    && s'.tasks == s.tasks[t := s.tasks[t].(rat := Answered(if accepted then Pipeline.SentOk else Pipeline.Failed))]
    && s'.sent == (if accepted then s.sent + {t} else s.sent) && s'.offers == s.offers
  }

  lemma GatewaySteps(p: Rules, s: State, t: int, res: SendResult, ok: bool)
    requires t in s.tasks && s.tasks[t].Request?
    ensures var at := s.tasks[t].rat;
      && (at.Sending? ==>
            Next(p, s, SendDone(t, res)) == Some(AfterSend(s, t, res.Accepted?,
              if res.SessionNotFound? && s.tasks[t].r.createSession then Creating else Answered(Pipeline.Failed))))
      && (at.Creating? ==>
          Next(p, s, CreateDone(t, ok)) == Some(AtR(s, t, if ok then Resending else Answered(Pipeline.Failed))))
      && (at.Resending? ==>
          Next(p, s, ResendDone(t, res)) == Some(AfterSend(s, t, res.Accepted?, Answered(Pipeline.Failed))))
  {
    hide AfterSend;
  }

  /** The remote part of a request alone: however the gateway answers, the machine has a run in which the
      request counts as sent exactly when Forward answers it with success. */
  lemma ForwardAlone(p: Rules, w: Inbound.World, n: nat, step: nat, session: string, b: Inbound.Body, s: State, t: int)
    returns (run: seq<Label>, s': State)
    requires t in s.tasks && s.tasks[t].Request? && s.tasks[t].rat.Sending?
    requires s.tasks[t].r.createSession == b.createSession
    ensures OnlyTask(run, t) && Play(p, s, run) == Some(s')
    ensures AnsweredAs(s, s', t, Inbound.Forward(w, n, step, session, b).1.SentOk?)
  {
    hide Next, Play, OnlyTask, AnsweredAs, HowSent, Inbound.Forward, Inbound.SendError, Inbound.CreateRpcs,
      Inbound.CreateResult, TrimSpace;
    var creates := Inbound.CreateRpcs(w, n + 1, step + 2, session, Inbound.OptionsOf(b));
    var made := Inbound.CreateResult(w, n + 1, step + 2, session, Inbound.OptionsOf(b)).Ok?;
    ForwardSent(w, n, step, session, b);
    run, s' := SendAlone(p, s, t, HowSent(Inbound.SendError(w, n)), made,
      HowSent(Inbound.SendError(w, n + 1 + |creates|)));
  }

  /** When Forward answers with success, in terms of its single calls. */
  lemma ForwardSent(w: Inbound.World, n: nat, step: nat, session: string, b: Inbound.Body)
    ensures var creates := Inbound.CreateRpcs(w, n + 1, step + 2, session, Inbound.OptionsOf(b));
      var made := Inbound.CreateResult(w, n + 1, step + 2, session, Inbound.OptionsOf(b)).Ok?;
      var first, again := HowSent(Inbound.SendError(w, n)), HowSent(Inbound.SendError(w, n + 1 + |creates|));
      Inbound.Forward(w, n, step, session, b).1.SentOk? <==>
        first.Accepted? || (first.SessionNotFound? && b.createSession && made && again.Accepted?)
  {
    hide Inbound.SendError, Inbound.CreateRpcs, Inbound.CreateResult, Inbound.SaysNotFound, TrimSpace;
  }

  lemma SendAlone(p: Rules, s: State, t: int, first: SendResult, made: bool, again: SendResult)
    returns (run: seq<Label>, s': State)
    requires t in s.tasks && s.tasks[t].Request? && s.tasks[t].rat.Sending?
    ensures OnlyTask(run, t) && Play(p, s, run) == Some(s')
    ensures AnsweredAs(s, s', t,
      first.Accepted? || (first.SessionNotFound? && s.tasks[t].r.createSession && made && again.Accepted?))
  {
    assert Play(p, s, []) == Some(s);
    hide Next, Play;
    GatewaySteps(p, s, t, first, true);
    PlayOn(p, s, [], s, SendDone(t, first));
    run, s' := [] + [SendDone(t, first)], Next(p, s, SendDone(t, first)).value;
    if s'.tasks[t].rat.Creating? {
      run, s' := CreateAlone(p, s, run, s', t, made, again);
    }
  }

  lemma CreateAlone(p: Rules, s0: State, before: seq<Label>, s: State, t: int, made: bool, again: SendResult)
    returns (run: seq<Label>, s': State)
    requires Play(p, s0, before) == Some(s) && t in s.tasks && s.tasks[t].Request? && s.tasks[t].rat.Creating?
    ensures (OnlyTask(before, t) ==> OnlyTask(run, t)) && Play(p, s0, run) == Some(s')
    ensures AnsweredAs(s, s', t, made && again.Accepted?)
  {
    hide Next, Play;
    GatewaySteps(p, s, t, again, made);
    PlayOn(p, s0, before, s, CreateDone(t, made));
    run, s' := before + [CreateDone(t, made)], Next(p, s, CreateDone(t, made)).value;
    if made {
      GatewaySteps(p, s', t, again, made);
      PlayOn(p, s0, run, s', ResendDone(t, again));
      run, s' := run + [ResendDone(t, again)], Next(p, s', ResendDone(t, again)).value;
    }
  }
}
