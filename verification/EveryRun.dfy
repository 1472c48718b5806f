/** The other direction of Alone: whatever run task t makes by itself, from its start to its end, there
    is an environment for which the sequential form does the same. The environment is read off the run,
    label by label. */
module EveryRun {
  import opened GoText
  import opened Frames
  import opened Storage
  import opened Delivery
  import opened Fingerprint
  import opened Pipeline
  import opened Alone
  import SessionKeys
  import Inbound

  // ----- taking a run apart from its front -----

  /** Only task t moves, from s to s'. */
  ghost predicate Takes(p: Rules, s: State, t: int, run: seq<Label>, s': State) {
    t in s.tasks && OnlyTask(run, t) && Play(p, s, run) == Some(s')
  }

  lemma {:induction false} PlayPrefix(p: Rules, s: State, a: seq<Label>, b: seq<Label>)
    requires Play(p, s, a + b).Some?
    ensures Play(p, s, a).Some?
    decreases |b|
  {
    if b == [] {
      assert a + b == a;
    } else {
      assert (a + b)[..|a + b| - 1] == a + b[..|b| - 1];
      PlayPrefix(p, s, a, b[..|b| - 1]);
    }
  }

  lemma PlayOne(p: Rules, s: State, l: Label)
    ensures Play(p, s, [l]) == Next(p, s, l)
  {
    assert Play(p, s, []) == Some(s);
    PlayOn(p, s, [], s, l);
    assert [] + [l] == [l];
  }

  /** The first step of a run that gets somewhere. */
  lemma Peel(p: Rules, s: State, t: int, run: seq<Label>, s': State) returns (l: Label, s1: State, rest: seq<Label>)
    requires Takes(p, s, t, run, s') && s != s'
    ensures OfTask(l, t) && Next(p, s, l) == Some(s1)
    ensures t in s1.tasks ==> Takes(p, s1, t, rest, s')
    ensures |rest| < |run|
  {
    assert run != [];
    l, rest := run[0], run[1..];
    assert run == [l] + rest;
    PlayPrefix(p, s, [l], rest);
    PlayOne(p, s, l);
    s1 := Next(p, s, l).value;
    PlayConcat(p, s, [l], rest);
  }

  // ----- handlers -----

  predicate HandlerDone(s: State, t: int) { t in s.tasks && s.tasks[t].Handler? && s.tasks[t].hat.HandlerEnded? }

  /** Where a handler stands decides what it does next. */
  lemma HandlerLabel(p: Rules, s: State, t: int, l: Label)
    requires t in s.tasks && s.tasks[t].Handler? && OfTask(l, t) && Next(p, s, l).Some?
    ensures match s.tasks[t].hat
      case Arrived => l.Look?
      case Aging(_) => l.CheckAge?
      case Loading => l.Load?
      case Filling(_) => l.Fill?
      case EvictingCache => l.EvictCache?
      case EvictingRow => l.EvictRow?
      case Decided(_) => l.Admit?
      case Offering(_) => l.Offer?
      case Posting(_) => l.Posted?
      case ClearingCache => l.ClearCache?
      case ClearingRow => l.ClearRow?
      case HandlerEnded => false
  {
    hide AdmitHandler;
  }

  lemma Finished(p: Rules, s: State, t: int, run: seq<Label>, s': State)
    requires Takes(p, s, t, run, s') && HandlerDone(s, t)
    ensures s' == s
  {
    hide Next;
    if s != s' {
      var l, s1, rest := Peel(p, s, t, run, s');
      HandlerLabel(p, s, t, l);
    }
  }

  lemma EveryClear(p: Rules, s: State, t: int, run: seq<Label>, s': State) returns (f: Fault)
    requires Takes(p, s, t, run, s') && s.tasks[t].Handler? && s.tasks[t].hat.ClearingCache? && HandlerDone(s', t)
    ensures var key := p.session(s.tasks[t].m);
      s' == With(s, Memory(s.cache - {key}, s.tables.Delete(key, f)), t, HandlerEnded)
  {
    hide Next, Play, OnlyTask;
    var key := p.session(s.tasks[t].m);
    var l, s1, rest := Peel(p, s, t, run, s');
    HandlerLabel(p, s, t, l);
    OfferSteps(p, s, t, true, Healthy);
    var mem := Kept(s).(cache := s.cache - {key});
    assert s1 == With(s, mem, t, ClearingRow);
    var l2, s2, rest2 := Peel(p, s1, t, rest, s');
    HandlerLabel(p, s1, t, l2);
    f := l2.f;
    OfferSteps(p, s1, t, true, f);
    WithAgain(s, mem, t, ClearingRow, Memory(s.cache - {key}, s.tables.Delete(key, f)), HandlerEnded);
    Finished(p, s2, t, rest2, s');
  }

  /** The answer to an offer. */
  lemma EveryAnswer(p: Rules, base: State, t: int, d: Session, s1: State, run: seq<Label>, s': State)
    returns (posted: bool, s2: State, rest: seq<Label>)
    requires t in base.tasks && base.tasks[t].Handler? && s1 == With(base, Kept(base), t, Posting(d))
    requires Takes(p, s1, t, run, s') && HandlerDone(s', t)
    ensures Takes(p, s2, t, rest, s')
    ensures s2 == With(base, Kept(base), t,
      if posted && !d.stream && p.session(base.tasks[t].m) != "" then ClearingCache else HandlerEnded)
  {
    hide Next, Play, OnlyTask;
    var l;
    l, s2, rest := Peel(p, s1, t, run, s');
    HandlerLabel(p, s1, t, l);
    posted := l.ok;
    OfferSteps(p, s1, t, posted, Healthy);
    WithAgain(base, Kept(base), t, Posting(d), Kept(base),
      if posted && !d.stream && p.session(base.tasks[t].m) != "" then ClearingCache else HandlerEnded);
  }

  /** From the offer to the end. */
  lemma EveryOffer(p: Rules, s: State, t: int, run: seq<Label>, s': State) returns (posted: bool, clear: Fault)
    requires Takes(p, s, t, run, s') && s.tasks[t].Handler? && s.tasks[t].hat.Offering? && HandlerDone(s', t)
    requires p.session(s.tasks[t].m) == TrimSpace(s.tasks[t].m.sessionKey)
    ensures var d := s.tasks[t].hat.d;
      EndedAs(s, s', t, if posted && !d.stream then Kept(s).Clear(s.tasks[t].m.sessionKey, clear) else Kept(s),
        Some(Address(p, d)))
  {
    hide Next, Play, OnlyTask, TrimSpace;
    var d, key := s.tasks[t].hat.d, p.session(s.tasks[t].m);
    var base := s.(offers := s.offers[t := Address(p, d)]);
    var l, s1, rest1 := Peel(p, s, t, run, s');
    HandlerLabel(p, s, t, l);
    OfferSteps(p, s, t, true, Healthy);
    hide Takes;
    var s2, rest;
    posted, s2, rest := EveryAnswer(p, base, t, d, s1, rest1, s');
    clear := Healthy;
    if posted && !d.stream && key != "" {
      clear := EveryClear(p, s2, t, rest, s');
      WithAgain(base, Kept(base), t, ClearingCache, Memory(s.cache - {key}, s.tables.Delete(key, clear)), HandlerEnded);
    } else {
      Finished(p, s2, t, rest, s');
    }
  }

  /** The lookup: it ends where the sequential lookup ends. */
  lemma EveryLookup(p: Rules, s: State, t: int, run: seq<Label>, s': State)
    returns (look: Fault, expire: Fault, x: State, rest: seq<Label>)
    requires Takes(p, s, t, run, s') && HandlerDone(s', t)
    requires s.tasks[t].Handler? && s.tasks[t].hat.Arrived? && p.passes(s.tasks[t].m)
    requires p.session(s.tasks[t].m) == TrimSpace(s.tasks[t].m.sessionKey)
    ensures Takes(p, x, t, rest, s')
    ensures var mem, key := Kept(s), s.tasks[t].m.sessionKey;
      x == With(s, mem.AfterGet(key, s.now, p.deliveryTTL, look, expire), t,
        Decided(mem.Answer(key, s.now, p.deliveryTTL, look)))
  {
    hide Next, Play, OnlyTask, TrimSpace;
    var mem, key := Kept(s), p.session(s.tasks[t].m);
    var l, s1, rest1 := Peel(p, s, t, run, s');
    HandlerLabel(p, s, t, l);
    LookSteps(p, s, t, Healthy);
    look, expire := Healthy, Healthy;
    if key in s.cache {
      expire, x, rest := EveryHit(p, s, t, s1, rest1, s');
    } else {
      look, x, rest := EveryMiss(p, s, t, s1, rest1, s');
    }
  }

  /** A cache entry was found. */
  lemma EveryHit(p: Rules, s: State, t: int, s1: State, run: seq<Label>, s': State)
    returns (expire: Fault, x: State, rest: seq<Label>)
    requires t in s.tasks && s.tasks[t].Handler? && p.passes(s.tasks[t].m) && p.session(s.tasks[t].m) in s.cache
    requires s1 == With(s, Kept(s), t, Aging(s.cache[p.session(s.tasks[t].m)]))
    requires Takes(p, s1, t, run, s') && HandlerDone(s', t)
    ensures Takes(p, x, t, rest, s')
    ensures var key := p.session(s.tasks[t].m);
      x == if s.now - s.cache[key].at > p.deliveryTTL
           then With(s, Memory(s.cache - {key}, s.tables.Delete(key, expire)), t, Decided(NO_OVERRIDE))
           else With(s, Kept(s), t, Decided(s.cache[key]))
  {
    hide Next, Play, OnlyTask;
    var key := p.session(s.tasks[t].m);
    var d, mem := s.cache[key], Kept(s);
    var l;
    l, x, rest := Peel(p, s1, t, run, s');
    HandlerLabel(p, s1, t, l);
    LookSteps(p, s1, t, Healthy);
    expire := Healthy;
    if s.now - d.at > p.deliveryTTL {
      WithAgain(s, mem, t, Aging(d), mem, EvictingCache);
      expire, x, rest := EveryEvict(p, s, t, x, rest, s');
    } else {
      WithAgain(s, mem, t, Aging(d), mem, Decided(d));
    }
  }

  lemma EveryEvict(p: Rules, s: State, t: int, s1: State, run: seq<Label>, s': State)
    returns (expire: Fault, x: State, rest: seq<Label>)
    requires t in s.tasks && s.tasks[t].Handler? && s1 == With(s, Kept(s), t, EvictingCache)
    requires Takes(p, s1, t, run, s') && HandlerDone(s', t)
    ensures Takes(p, x, t, rest, s')
    ensures var key := p.session(s.tasks[t].m);
      x == With(s, Memory(s.cache - {key}, s.tables.Delete(key, expire)), t, Decided(NO_OVERRIDE))
  {
    hide Next, Play, OnlyTask;
    var key := p.session(s.tasks[t].m);
    var mem := Memory(s.cache - {key}, s.tables);
    var l, s2, rest2 := Peel(p, s1, t, run, s');
    HandlerLabel(p, s1, t, l);
    RefreshSteps(p, s1, t, Healthy);
    WithAgain(s, Kept(s), t, EvictingCache, mem, EvictingRow);
    l, x, rest := Peel(p, s2, t, rest2, s');
    HandlerLabel(p, s2, t, l);
    expire := l.f;
    RefreshSteps(p, s2, t, expire);
    WithAgain(s, mem, t, EvictingRow, Memory(s.cache - {key}, s.tables.Delete(key, expire)), Decided(NO_OVERRIDE));
  }

  /** No cache entry was found. */
  lemma EveryMiss(p: Rules, s: State, t: int, s1: State, run: seq<Label>, s': State)
    returns (look: Fault, x: State, rest: seq<Label>)
    requires t in s.tasks && s.tasks[t].Handler? && p.passes(s.tasks[t].m)
    requires s1 == With(s, Kept(s), t, Loading) && Takes(p, s1, t, run, s') && HandlerDone(s', t)
    ensures Takes(p, x, t, rest, s')
    ensures var key := p.session(s.tasks[t].m);
      x == match s.tables.Lookup(key, look)
           case Some(Some(row)) => With(s, Kept(s).(cache := s.cache[key := row]), t, Decided(row))
           case _ => With(s, Kept(s), t, Decided(NO_OVERRIDE))
  {
    hide Next, Play, OnlyTask;
    var key, mem := p.session(s.tasks[t].m), Kept(s);
    var l;
    l, x, rest := Peel(p, s1, t, run, s');
    HandlerLabel(p, s1, t, l);
    look := l.f;
    LookSteps(p, s1, t, look);
    match s.tables.Lookup(key, look) {
      case Some(Some(row)) =>
        WithAgain(s, mem, t, Loading, mem, Filling(row));
        var s2 := x;
        l, x, rest := Peel(p, s2, t, rest, s');
        HandlerLabel(p, s2, t, l);
        RefreshSteps(p, s2, t, Healthy);
        WithAgain(s, mem, t, Filling(row), mem.(cache := s.cache[key := row]), Decided(row));
      case _ => WithAgain(s, mem, t, Loading, mem, Decided(NO_OVERRIDE));
    }
  }

  /** Finality and deduplication, and whatever follows. */
  lemma EveryAdmit(p: Rules, s: State, t: int, run: seq<Label>, s': State)
    returns (register: Fault, posted: bool, clear: Fault)
    requires Takes(p, s, t, run, s') && HandlerDone(s', t) && s.tasks[t].Handler? && s.tasks[t].hat.Decided?
    requires p.session(s.tasks[t].m) == TrimSpace(s.tasks[t].m.sessionKey)
    ensures var d, m := s.tasks[t].hat.d, s.tasks[t].m;
      var noted := Kept(s).(tables := s.tables.Insert("outbound", p.outKey(m), p.dedupeTTL, s.now, register));
      if !d.stream && !p.final(m) then EndedAs(s, s', t, Kept(s), None)
      else if s.tables.IsNew(p.outKey(m), register) == Some(false) then EndedAs(s, s', t, noted, None)
      else EndedAs(s, s', t, if posted && !d.stream then noted.Clear(m.sessionKey, clear) else noted,
        Some(Address(p, d)))
  {
    hide Next, Play, OnlyTask, TrimSpace, Tables.Insert, Tables.IsNew, Memory.Clear;
    var l, s1, rest := Peel(p, s, t, run, s');
    HandlerLabel(p, s, t, l);
    register, posted, clear := l.f, false, Healthy;
    var s2 := AdmitStep(p, s, t, register);
    if HandlerDone(s1, t) {
      Finished(p, s1, t, rest, s');
    } else {
      posted, clear := EveryOffer(p, s1, t, rest, s');
    }
  }

  /** Every run that a handler makes by itself, from the arrival of its message to its end, is the
      sequential handler in some environment: same settings and tables, and an offer to the same address
      or none. */
  lemma EveryHandler(cfg: Config, decode: string -> Option<Frame>, s: State, t: int, run: seq<Label>, s': State)
    returns (env: Delivery.Env)
    requires Takes(Bridge(cfg, decode), s, t, run, s') && HandlerDone(s', t)
    requires s.tasks[t].Handler? && s.tasks[t].hat.Arrived?
    ensures env.now == s.now
    ensures var (mem, out) := Handled(cfg, Kept(s), s.tasks[t].m, env);
      EndedAs(s, s', t, mem, if out.SendFailed? || out.Delivered? then Some(out.url) else None)
  {
    hide Next, Play, OnlyTask, Passes, IsFinalEvent, TrimSpace;
    hide Memory.Answer, Memory.AfterGet, Memory.Clear, Tables.Insert, Tables.IsNew;
    var p, m := Bridge(cfg, decode), s.tasks[t].m;
    if !Passes(cfg, m) {
      env := Delivery.Env(s.now, Healthy, Healthy, Healthy, false, Healthy);
      var l, s1, rest := Peel(p, s, t, run, s');
      HandlerLabel(p, s, t, l);
      SkipStep(p, s, t);
      Finished(p, s1, t, rest, s');
    } else {
      hide Takes;
      var look, expire, x, rest := EveryLookup(p, s, t, run, s');
      env := EveryPastLookup(cfg, decode, s, t, look, expire, x, rest, s');
    }
  }

  lemma EveryPastLookup(
    cfg: Config, decode: string -> Option<Frame>, s: State, t: int, look: Fault, expire: Fault,
    x: State, run: seq<Label>, s': State)
    returns (env: Delivery.Env)
    requires t in s.tasks && s.tasks[t].Handler? && Passes(cfg, s.tasks[t].m)
    requires var mem, key := Kept(s), s.tasks[t].m.sessionKey;
      x == With(s, mem.AfterGet(key, s.now, cfg.deliveryTTL, look, expire), t,
        Decided(mem.Answer(key, s.now, cfg.deliveryTTL, look)))
    requires Takes(Bridge(cfg, decode), x, t, run, s') && HandlerDone(s', t)
    ensures env.now == s.now
    ensures var (mem, out) := Handled(cfg, Kept(s), s.tasks[t].m, env);
      EndedAs(s, s', t, mem, if out.SendFailed? || out.Delivered? then Some(out.url) else None)
  {
    hide Next, Play, OnlyTask, Takes, Passes, IsFinalEvent, TrimSpace, OutboundKey;
    hide Memory.Answer, Memory.AfterGet, Memory.Clear, Tables.Insert, Tables.IsNew;
    var register, posted, clear := EveryAdmit(Bridge(cfg, decode), x, t, run, s');
    env := Delivery.Env(s.now, look, expire, register, posted, clear);
  }

  // ----- requests -----

  predicate RequestDone(s: State, t: int) { t in s.tasks && s.tasks[t].Request? && s.tasks[t].rat.Answered? }

  lemma RequestLabel(p: Rules, s: State, t: int, l: Label)
    requires t in s.tasks && s.tasks[t].Request? && OfTask(l, t) && Next(p, s, l).Some?
    ensures match s.tasks[t].rat
      case Received => l.AdmitIn?
      case Caching => l.StoreCache?
      case Persisting => l.StoreRow?
      case Sending => l.SendDone?
      case Creating => l.CreateDone?
      case Resending => l.ResendDone?
      case Answered(_) => false
  {
    hide AdmitRequest, AfterSend;
  }

  lemma RequestFinished(p: Rules, s: State, t: int, run: seq<Label>, s': State)
    requires Takes(p, s, t, run, s') && RequestDone(s, t)
    ensures s' == s
  {
    hide Next;
    if s != s' {
      var l, s1, rest := Peel(p, s, t, run, s');
      RequestLabel(p, s, t, l);
    }
  }

  /** The two writes of a request's settings. */
  lemma EveryStore(p: Rules, s: State, t: int, run: seq<Label>, s': State)
    returns (persist: Fault, x: State, rest: seq<Label>)
    requires Takes(p, s, t, run, s') && RequestDone(s', t) && s.tasks[t].Request? && s.tasks[t].rat.Caching?
    ensures Takes(p, x, t, rest, s')
    ensures var r := s.tasks[t].r;
      && Kept(x) == Memory(s.cache[p.home(r) := Session(r.callbackUrl, r.stream, s.now)],
           s.tables.Upsert(p.home(r), r.callbackUrl, r.stream, s.now, persist))
      && x.tasks == s.tasks[t := Request(r, Sending)] && x.offers == s.offers && x.sent == s.sent
  {
    hide Next, Play, OnlyTask;
    var l, s1, rest1 := Peel(p, s, t, run, s');
    RequestLabel(p, s, t, l);
    StoreSteps(p, s, t, Healthy);
    l, x, rest := Peel(p, s1, t, rest1, s');
    RequestLabel(p, s1, t, l);
    persist := l.f;
    StoreSteps(p, s1, t, persist);
  }

  /** The local part: it answers as Admit answers, or comes to the point of sending as Admit leaves it. */
  lemma EveryLocal(
    cfg: Config, decode: string -> Option<Frame>, digest: string -> string, s: State, t: int,
    r: Inbound.HttpRequest, run: seq<Label>, s': State)
    returns (env: Inbound.Env, x: State, rest: seq<Label>)
    requires SessionKeys.HexDigest(digest) && Inbound.Refusal(digest, r).None?
    requires Takes(Bridge(cfg, decode), s, t, run, s') && RequestDone(s', t)
    requires s.tasks[t] == Request(Validated(digest, r), Received)
    ensures env.now == s.now && Takes(Bridge(cfg, decode), x, t, rest, s')
    ensures var (mem, answer) := Inbound.Admit(digest, cfg.dedupeTTL, Kept(s), r, env);
      && Kept(x) == mem && x.tasks == s.tasks[t := Request(Validated(digest, r), WhereLeft(answer))]
      && x.offers == s.offers && x.sent == s.sent
  {
    hide Next, Play, OnlyTask, TrimSpace, Pipeline.Register, Tables.Insert, Tables.IsNew, Tables.Upsert;
    hide SessionKeys.InboundKey, SessionKeys.CallbackOk, SessionKeys.ResolveSessionKey;
    var p, req, b := Bridge(cfg, decode), s.tasks[t].r, r.body.value;
    var l;
    l, x, rest := Peel(p, s, t, run, s');
    RequestLabel(p, s, t, l);
    env := Inbound.Env(s.now, l.f, Healthy);
    AdmitIsNext(p, s, t, env.register);
    RegisterSeen(s, t, "inbound", p.inKey(req), p.dedupeTTL, env.register);
    SessionKeys.ResolveFixedPoint(digest, b.sessionKey, b.agentID, b.customerID, b.workspace, "", "", "", "", "");
    hide Takes;
    if x.tasks[t].rat.Caching? {
      var persist;
      persist, x, rest := EveryStore(p, x, t, rest, s');
      env := env.(persist := persist);
    }
  }

  lemma SentAnswers(s: State, t: int, accepted: bool)
    requires t in s.tasks && s.tasks[t].Request?
    ensures var s1 := AfterSend(s, t, accepted, Answered(Pipeline.Failed));
      AnsweredAs(s, s1, t, accepted) && RequestDone(s1, t)
  {}

  lemma AnsweredLater(s: State, t: int, at: RequestAt, s': State, accepted: bool)
    requires t in s.tasks && s.tasks[t].Request? && AnsweredAs(AtR(s, t, at), s', t, accepted)
    ensures AnsweredAs(s, s', t, accepted)
  {}

  lemma Stands(s: State, t: int, at: RequestAt)
    requires t in s.tasks && s.tasks[t].Request?
    ensures var s1 := AtR(s, t, at); t in s1.tasks && s1.tasks[t] == Request(s.tasks[t].r, at)
    ensures AfterSend(s, t, false, at) == AtR(s, t, at)
    ensures AfterSend(s, t, true, at) == AfterSend(s, t, true, Answered(Pipeline.Failed))
  {}

  /** The remote part, in terms of how its calls came back. */
  lemma EverySend(p: Rules, s: State, t: int, run: seq<Label>, s': State)
    returns (first: SendResult, made: bool, again: SendResult)
    requires t in s.tasks && s.tasks[t].Request? && s.tasks[t].rat.Sending?
    requires Takes(p, s, t, run, s') && RequestDone(s', t)
    ensures AnsweredAs(s, s', t,
      first.Accepted? || (first.SessionNotFound? && s.tasks[t].r.createSession && made && again.Accepted?))
  {
    hide Next, Takes, AfterSend, AtR, AnsweredAs;
    var l, s1, rest := Peel(p, s, t, run, s');
    RequestLabel(p, s, t, l);
    first, made, again := l.res, false, Pipeline.Rejected;
    GatewaySteps(p, s, t, first, true);
    SentAnswers(s, t, first.Accepted?);
    Stands(s, t, Creating);
    if first.SessionNotFound? && s.tasks[t].r.createSession {
      made, again := EveryCreate(p, s1, t, rest, s');
      AnsweredLater(s, t, Creating, s', made && again.Accepted?);
    } else {
      RequestFinished(p, s1, t, rest, s');
    }
  }

  lemma EveryCreate(p: Rules, s: State, t: int, run: seq<Label>, s': State) returns (made: bool, again: SendResult)
    requires t in s.tasks && s.tasks[t].Request? && s.tasks[t].rat.Creating?
    requires Takes(p, s, t, run, s') && RequestDone(s', t)
    ensures AnsweredAs(s, s', t, made && again.Accepted?)
  {
    hide Next, Takes, AfterSend, AtR, AnsweredAs;
    var l, s1, rest := Peel(p, s, t, run, s');
    RequestLabel(p, s, t, l);
    made, again := l.ok, Pipeline.Rejected;
    GatewaySteps(p, s, t, again, made);
    SentAnswers(s, t, false);
    Stands(s, t, Resending);
    Stands(s, t, Answered(Pipeline.Failed));
    if made {
      var l2, s2, rest2 := Peel(p, s1, t, rest, s');
      RequestLabel(p, s1, t, l2);
      again := l2.res;
      GatewaySteps(p, s1, t, again, made);
      SentAnswers(s1, t, again.Accepted?);
      RequestFinished(p, s2, t, rest2, s');
      AnsweredLater(s, t, Resending, s', again.Accepted?);
    } else {
      RequestFinished(p, s1, t, rest, s');
    }
  }

  // ----- a world in which the calls come back like that -----

  function ReplyFor(res: SendResult): Inbound.Result<Frame> {
    match res
    case Accepted => Inbound.Ok(map[])
    case SessionNotFound => Inbound.Err(Inbound.Error("", "session not found"))
    case Rejected => Inbound.Err(Inbound.Error("", ""))
  }

  function WorldOf(n: nat, first: SendResult, made: bool, again: SendResult): Inbound.World {
    Inbound.World(
      (k: nat) =>
        ReplyFor(if k == n then first else if k != n + 1 then again else if made then Accepted else Pipeline.Rejected),
      _ => "")
  }

  lemma NotFoundIsSaid()
    ensures Inbound.SaysNotFound(Inbound.Error("", "session not found")) && !Inbound.SaysNotFound(Inbound.Error("", ""))
  {
    var text := "session not found";
    assert ToLower(text) == text;
    assert GoText.At(text, text, 0);
    assert ToLower("") == "";
  }

  lemma WorldAnswers(
    n: nat, step: nat, session: string, b: Inbound.Body, first: SendResult, made: bool, again: SendResult)
    requires NotBlank(session)
    ensures Inbound.Forward(WorldOf(n, first, made, again), n, step, session, b).1.SentOk? <==>
      first.Accepted? || (first.SessionNotFound? && b.createSession && made && again.Accepted?)
  {
    hide Inbound.SaysNotFound, Inbound.Forward;
    var w, opts := WorldOf(n, first, made, again), Inbound.OptionsOf(b);
    NotFoundIsSaid();
    assert w.reply(n) == ReplyFor(first) && w.reply(n + 2) == ReplyFor(again);
    assert w.reply(n + 1) == ReplyFor(if made then Accepted else Pipeline.Rejected);
    assert !HasError(map[]);
    assert HowSent(Inbound.SendError(w, n)) == first;
    assert HowSent(Inbound.SendError(w, n + 2)) == again;
    assert |Inbound.CreateRpcs(w, n + 1, step + 2, session, opts)| == 1;
    Inbound.CreateSucceedsIff(w, n + 1, step + 2, session, opts);
    assert Inbound.CreateResult(w, n + 1, step + 2, session, opts).Ok? == made;
    ForwardSent(w, n, step, session, b);
  }

  lemma ForwardEnds(w: Inbound.World, n: nat, step: nat, session: string, b: Inbound.Body)
    ensures var answer := Inbound.Forward(w, n, step, session, b).1; answer.SentOk? || answer.GatewayFailed?
  {
    hide Inbound.SendError, Inbound.CreateRpcs, Inbound.CreateResult, Inbound.SaysNotFound;
  }

  /** What the machine records of an answer. */
  function Recorded(answer: Inbound.Response): Answer {
    match answer
    case SentOk(_) => Pipeline.SentOk
    case DuplicateOk => Pipeline.DuplicateOk
    case BadCallback => Pipeline.BadCallback
    case _ => Pipeline.Failed
  }

  /** Every run that a request makes by itself, from its arrival to its answer, is the sequential handler
      in some environment and some world outside: same settings and tables, same answer, and sent exactly
      if that answer is success. */
  lemma EveryRequest(
    cfg: Config, decode: string -> Option<Frame>, digest: string -> string, s: State, t: int,
    r: Inbound.HttpRequest, n: nat, step: nat, run: seq<Label>, s': State)
    returns (env: Inbound.Env, w: Inbound.World)
    requires SessionKeys.HexDigest(digest) && Inbound.Refusal(digest, r).None?
    requires Takes(Bridge(cfg, decode), s, t, run, s') && RequestDone(s', t)
    requires s.tasks[t] == Request(Validated(digest, r), Received)
    ensures env.now == s.now
    ensures var (mem, local) := Inbound.Admit(digest, cfg.dedupeTTL, Kept(s), r, env);
      var answer := if local.Some? then local.value
        else Inbound.Forward(w, n, step, Inbound.SessionKeyOf(digest, r.body.value), r.body.value).1;
      && Kept(s') == mem && s'.tasks == s.tasks[t := Request(Validated(digest, r), Answered(Recorded(answer)))]
      && s'.offers == s.offers && s'.sent == (if answer.SentOk? then s.sent + {t} else s.sent)
  {
    hide Next, Play, OnlyTask, Takes, TrimSpace, Inbound.Forward, NotBlank, WorldOf, SessionKeys.ResolveSessionKey;
    var p, b := Bridge(cfg, decode), r.body.value;
    var session := Inbound.SessionKeyOf(digest, b);
    SessionKeys.ResolveFixedPoint(digest, b.sessionKey, b.agentID, b.customerID, b.workspace, "", "", "", "", "");
    NotBlankIsTrim(session);
    var x, rest;
    env, x, rest := EveryLocal(cfg, decode, digest, s, t, r, run, s');
    w := WorldOf(n, Accepted, true, Accepted);
    if x.tasks[t].rat.Sending? {
      var first, made, again := EverySend(p, x, t, rest, s');
      w := WorldOf(n, first, made, again);
      WorldAnswers(n, step, session, b, first, made, again);
      ForwardEnds(w, n, step, session, b);
    } else {
      RequestFinished(p, x, t, rest, s');
    }
  }
}
