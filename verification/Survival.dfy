/** What becomes of a session's new delivery setting when tasks overlap (internal/app/app.go). A request
    stores its setting in the cache and then in the table. Handlers of the same session and other
    requests may be under way with something older: these, and only these, can take the setting away
    without ever having seen it. */
module Survival {
  import opened GoText
  import opened Frames
  import opened Storage
  import opened Delivery
  import opened Pipeline
  import opened Alone
  import opened EveryRun

  /** The setting of request u: what it asked for, under which key, and from when on. */
  datatype Setting = Setting(u: int, key: string, r: SendRequest, since: int) {

    /** The same callback address and mode, stored since then. */
    predicate Is(d: Session) { d.callbackUrl == r.callbackUrl && d.stream == r.stream && d.at >= since }

    predicate In(m: map<string, Session>) { key in m && Is(m[key]) }
  }

  function SettingOf(p: Rules, s: State, u: int): Setting
    requires u in s.tasks && s.tasks[u].Request?
  {
    Setting(u, p.home(s.tasks[u].r), s.tasks[u].r, s.now)
  }

  // ----- who is under way with something older -----

  /** A handler that holds another setting and will store it, or clear the session because of it, or has
      already decided to. */
  predicate StaleAt(p: Rules, s: State, g: Setting, m: Message, at: HandlerAt) {
    match at
    case Aging(d) => !g.Is(d)
    case Loading => s.tables.enabled && g.key in s.tables.sessions && !g.Is(s.tables.sessions[g.key])
    case Filling(d) => !g.Is(d)
    case EvictingCache => true
    case EvictingRow => s.tables.enabled
    case Decided(d) => !g.Is(d) && !d.stream && p.final(m)
    case Offering(d) => !g.Is(d) && !d.stream
    case Posting(d) => !g.Is(d) && !d.stream
    case ClearingCache => true
    case ClearingRow => s.tables.enabled
    case _ => false
  }

  predicate Stale(p: Rules, s: State, g: Setting, t: int) {
    && t in s.tasks && t != g.u
    && match s.tasks[t]
       case Handler(m, at) => p.session(m) == g.key && StaleAt(p, s, g, m, at)
       case Request(r, at) =>
         p.home(r) == g.key && at.Persisting? && s.tables.enabled &&
           (r.callbackUrl != g.r.callbackUrl || r.stream != g.r.stream)
  }

  // ----- steps that rightly end a setting -----

  predicate OnKey(p: Rules, s: State, g: Setting, t: int) {
    t in s.tasks && s.tasks[t].Handler? && p.session(s.tasks[t].m) == g.key
  }

  /** A newer setting of the session is stored, or a handler that has read this one finds it too old or has
      delivered the last event under it, or the process restarts, or the request's own row is not stored. */
  predicate Supersedes(p: Rules, s: State, g: Setting, l: Label) {
    match l
    case StoreCache(v) => v != g.u && v in s.tasks && s.tasks[v].Request? && p.home(s.tasks[v].r) == g.key
    case StoreRow(v, f) => v == g.u && !f.Healthy?
    case CheckAge(t) =>
      OnKey(p, s, g, t) && s.tasks[t].hat.Aging? && g.Is(s.tasks[t].hat.d) &&
        s.now - s.tasks[t].hat.d.at > p.deliveryTTL
    case Posted(t, ok) => ok && OnKey(p, s, g, t) && s.tasks[t].hat.Posting? && g.Is(s.tasks[t].hat.d) &&
        !s.tasks[t].hat.d.stream
    case Restart => true
    case _ => false
  }

  ghost predicate Undisturbed(p: Rules, s0: State, g: Setting, run: seq<Label>)
    decreases |run|
  {
    run == [] ||
    (&& Undisturbed(p, s0, g, run[..|run| - 1])
     && match Play(p, s0, run[..|run| - 1])
        case Some(s) => !Supersedes(p, s, g, run[|run| - 1])
        case None => true)
  }

  /** A run from s0 to s in which nothing of the kind happens. */
  ghost predicate Runs(p: Rules, s0: State, g: Setting, run: seq<Label>, s: State) {
    Play(p, s0, run) == Some(s) && Undisturbed(p, s0, g, run)
  }

  predicate Written(s: State, g: Setting) {
    && g.u in s.tasks && s.tasks[g.u].Request?
    && !s.tasks[g.u].rat.Received? && !s.tasks[g.u].rat.Caching? && !s.tasks[g.u].rat.Persisting?
  }

  /** The setting is not in the cache, or not in the table although its request has written it there. */
  predicate Lost(s: State, g: Setting) {
    !g.In(s.cache) || (s.tables.enabled && Written(s, g) && !g.In(s.tables.sessions))
  }

  // ----- without stale tasks it stays -----

  ghost predicate Safe(p: Rules, s: State, g: Setting) {
    && !Lost(s, g) && g.since <= s.now && g.u in s.who
    && g.u in s.tasks && s.tasks[g.u].Request? && s.tasks[g.u].r == g.r && p.home(g.r) == g.key
    && (s.tasks[g.u].rat.Persisting? || Written(s, g))
    && forall t :: t in s.tasks ==> !Stale(p, s, g, t)
  }

  /** What a step may do to the key's entries: keep them, renew them with this setting, or drop another's row. */
  predicate Still(s: State, s': State, g: Setting) {
    && s'.tables.enabled == s.tables.enabled && s.now <= s'.now && s'.who == s.who
    && g.In(s'.cache)
    && (g.key in s'.tables.sessions ==>
          g.Is(s'.tables.sessions[g.key]) ||
            (g.key in s.tables.sessions && s'.tables.sessions[g.key] == s.tables.sessions[g.key]))
    && (g.In(s.tables.sessions) ==> g.In(s'.tables.sessions))
  }

  lemma OneMoves(p: Rules, s: State, s': State, g: Setting, t: int)
    requires Safe(p, s, g) && Still(s, s', g) && t in s.tasks && t != g.u
    requires t in s'.tasks && s'.tasks == s.tasks[t := s'.tasks[t]] && !Stale(p, s', g, t)
    ensures Safe(p, s', g)
  {
    forall x | x in s'.tasks ensures !Stale(p, s', g, x) { assert x != t ==> !Stale(p, s, g, x); }
  }

  lemma RequestMoves(p: Rules, s: State, s': State, g: Setting)
    requires Safe(p, s, g) && Still(s, s', g) && g.u in s'.tasks && s'.tasks == s.tasks[g.u := s'.tasks[g.u]]
    requires s'.tasks[g.u].Request? && s'.tasks[g.u].r == g.r && Written(s', g)
    requires (s.tables.enabled ==> g.In(s'.tables.sessions))
    ensures Safe(p, s', g)
  {
    forall x | x in s'.tasks ensures !Stale(p, s', g, x) { assert x != g.u ==> !Stale(p, s, g, x); }
  }

  lemma HandlerKeepsSafe(p: Rules, s: State, g: Setting, t: int, l: Label, s': State)
    requires Safe(p, s, g) && t in s.tasks && s.tasks[t].Handler? && OfTask(l, t)
    requires Next(p, s, l) == Some(s') && !Supersedes(p, s, g, l)
    ensures Safe(p, s', g)
  {
    hide Next, Safe;
    HandlerLabel(p, s, t, l);
    match s.tasks[t].hat {
      case Arrived => LookKeepsSafe(p, s, g, t, l, s');
      case Aging(_) => LookKeepsSafe(p, s, g, t, l, s');
      case Loading => LoadKeepsSafe(p, s, g, t, l, s');
      case Filling(_) => RefreshKeepsSafe(p, s, g, t, l, s');
      case EvictingCache => RefreshKeepsSafe(p, s, g, t, l, s');
      case EvictingRow => RefreshKeepsSafe(p, s, g, t, l, s');
      case Decided(_) => AdmitKeepsSafe(p, s, g, t, l, s');
      case _ => OfferKeepsSafe(p, s, g, t, l, s');
    }
  }

  lemma LookKeepsSafe(p: Rules, s: State, g: Setting, t: int, l: Label, s': State)
    requires Safe(p, s, g) && t in s.tasks && s.tasks[t].Handler? && OfTask(l, t) && (l.Look? || l.CheckAge?)
    requires Next(p, s, l) == Some(s') && !Supersedes(p, s, g, l)
    ensures Safe(p, s', g)
  {
    HandlerLabel(p, s, t, l);
    hide Next;
    assert !Stale(p, s, g, t);
    var key := p.session(s.tasks[t].m);
    LookSteps(p, s, t, Healthy);
    if l.CheckAge? {
      var d := s.tasks[t].hat.d;
      StepsAside(p, s, s', g, t, if s.now - d.at > p.deliveryTTL then EvictingCache else Decided(d));
    } else if p.passes(s.tasks[t].m) {
      StepsAside(p, s, s', g, t, if key in s.cache then Aging(s.cache[key]) else Loading);
    } else {
      SkipStep(p, s, t);
      StepsAside(p, s, s', g, t, HandlerEnded);
    }
  }

  lemma LoadKeepsSafe(p: Rules, s: State, g: Setting, t: int, l: Label, s': State)
    requires Safe(p, s, g) && t in s.tasks && s.tasks[t].Handler? && OfTask(l, t) && l.Load?
    requires Next(p, s, l) == Some(s')
    ensures Safe(p, s', g)
  {
    HandlerLabel(p, s, t, l);
    hide Next;
    assert !Stale(p, s, g, t);
    LookSteps(p, s, t, l.f);
    StepsAside(p, s, s', g, t, s'.tasks[t].hat);
  }

  /** A handler that only moves on. */
  lemma StepsAside(p: Rules, s: State, s': State, g: Setting, t: int, at: HandlerAt)
    requires Safe(p, s, g) && t in s.tasks && s.tasks[t].Handler? && s' == With(s, Kept(s), t, at)
    requires p.session(s.tasks[t].m) == g.key ==> !StaleAt(p, s, g, s.tasks[t].m, at)
    ensures Safe(p, s', g)
  {
    OneMoves(p, s, s', g, t);
  }

  lemma RefreshKeepsSafe(p: Rules, s: State, g: Setting, t: int, l: Label, s': State)
    requires Safe(p, s, g) && t in s.tasks && s.tasks[t].Handler? && OfTask(l, t)
    requires (l.Fill? || l.EvictCache? || l.EvictRow?)
    requires Next(p, s, l) == Some(s')
    ensures Safe(p, s', g)
  {
    HandlerLabel(p, s, t, l);
    hide Next;
    assert !Stale(p, s, g, t);
    RefreshSteps(p, s, t, if l.EvictRow? then l.f else Healthy);
    OneMoves(p, s, s', g, t);
  }

  lemma AdmitKeepsSafe(p: Rules, s: State, g: Setting, t: int, l: Label, s': State)
    requires Safe(p, s, g) && t in s.tasks && s.tasks[t].Handler? && l.Admit? && l.t == t
    requires Next(p, s, l) == Some(s')
    ensures Safe(p, s', g)
  {
    HandlerLabel(p, s, t, l);
    hide Next;
    assert !Stale(p, s, g, t);
    var x := AdmitStep(p, s, t, l.f);
    OneMoves(p, s, s', g, t);
  }

  lemma OfferKeepsSafe(p: Rules, s: State, g: Setting, t: int, l: Label, s': State)
    requires Safe(p, s, g) && t in s.tasks && s.tasks[t].Handler? && OfTask(l, t)
    requires l.Offer? || l.Posted? || l.ClearCache? || l.ClearRow?
    requires Next(p, s, l) == Some(s') && !Supersedes(p, s, g, l)
    ensures Safe(p, s', g)
  {
    HandlerLabel(p, s, t, l);
    hide Next;
    assert !Stale(p, s, g, t);
    OfferSteps(p, s, t, if l.Posted? then l.ok else true, if l.ClearRow? then l.f else Healthy);
    OneMoves(p, s, s', g, t);
  }

  lemma AdmitLeaves(p: Rules, s: State, t: int, f: Fault) returns (s': State)
    requires t in s.tasks && s.tasks[t].Request? && s.tasks[t].rat.Received?
    ensures Next(p, s, AdmitIn(t, f)) == Some(s') && s' == AdmitRequest(p, s, t, f)
    ensures s'.cache == s.cache && s'.tables.sessions == s.tables.sessions && s'.tables.enabled == s.tables.enabled
    ensures s'.now == s.now && s'.who == s.who && t in s'.tasks && s'.tasks == s.tasks[t := s'.tasks[t]]
    ensures s'.tasks[t].Request? && s'.tasks[t].r == s.tasks[t].r
    ensures (s'.tasks[t].rat.Caching? || s'.tasks[t].rat.Answered?)
  {
    AdmitIsNext(p, s, t, f);
    hide Next, Pipeline.Register, Tables.Insert;
    s' := AdmitRequest(p, s, t, f);
    RegisterSeen(s, t, "inbound", p.inKey(s.tasks[t].r), p.dedupeTTL, f);
  }

  /** Another request, up to its own two writes. */
  lemma OthersKeepSafe(p: Rules, s: State, g: Setting, t: int, l: Label, s': State)
    requires Safe(p, s, g) && t in s.tasks && s.tasks[t].Request? && OfTask(l, t) && t != g.u
    requires l.AdmitIn? || l.StoreCache? || l.StoreRow?
    requires Next(p, s, l) == Some(s') && !Supersedes(p, s, g, l)
    ensures Safe(p, s', g)
  {
    RequestLabel(p, s, t, l);
    hide Next, AdmitRequest;
    assert !Stale(p, s, g, t);
    if l.AdmitIn? {
      var x := AdmitLeaves(p, s, t, l.f);
    } else {
      StoreSteps(p, s, t, if l.StoreRow? then l.f else Healthy);
    }
    OneMoves(p, s, s', g, t);
  }

  /** The request itself writes its row. */
  lemma OwnRowKeepsSafe(p: Rules, s: State, g: Setting, l: Label, s': State)
    requires Safe(p, s, g) && OfTask(l, g.u) && (l.AdmitIn? || l.StoreCache? || l.StoreRow?)
    requires Next(p, s, l) == Some(s') && !Supersedes(p, s, g, l)
    ensures Safe(p, s', g)
  {
    RequestLabel(p, s, g.u, l);
    hide Next;
    StoreSteps(p, s, g.u, Healthy);
    RequestMoves(p, s, s', g);
  }

  /** Calls to the gateway leave settings alone. */
  lemma CallsKeepSafe(p: Rules, s: State, g: Setting, t: int, l: Label, s': State)
    requires Safe(p, s, g) && t in s.tasks && s.tasks[t].Request? && OfTask(l, t)
    requires (l.SendDone? || l.CreateDone? || l.ResendDone?)
    requires Next(p, s, l) == Some(s')
    ensures Safe(p, s', g)
  {
    var x := CallLeaves(p, s, t, l);
    hide Next;
    if t == g.u { RequestMoves(p, s, s', g); } else { OneMoves(p, s, s', g, t); }
  }

  lemma CallLeaves(p: Rules, s: State, t: int, l: Label) returns (s': State)
    requires t in s.tasks && s.tasks[t].Request? && OfTask(l, t) && (l.SendDone? || l.CreateDone? || l.ResendDone?)
    requires Next(p, s, l).Some?
    ensures Next(p, s, l) == Some(s') && Kept(s') == Kept(s) && s'.now == s.now && s'.who == s.who
    ensures t in s'.tasks && s'.tasks == s.tasks[t := s'.tasks[t]] && s'.tasks[t].Request?
    ensures s'.tasks[t].r == s.tasks[t].r
    ensures s'.tasks[t].rat.Creating? || s'.tasks[t].rat.Resending? || s'.tasks[t].rat.Answered?
    ensures !s.tasks[t].rat.Persisting?
  {
    RequestLabel(p, s, t, l);
    hide Next, AfterSend, AtR, OfTask;
    s' := Next(p, s, l).value;
    if l.CreateDone? {
      GatewaySteps(p, s, t, Accepted, l.ok);
      CreateLeaves(s, t, if l.ok then Resending else Answered(Pipeline.Failed));
    } else {
      GatewaySteps(p, s, t, l.res, true);
      SendLeaves(s, t, l.res.Accepted?,
        if l.SendDone? && l.res.SessionNotFound? && s.tasks[t].r.createSession then Creating
          else Answered(Pipeline.Failed));
    }
  }

  lemma CreateLeaves(s: State, t: int, at: RequestAt)
    requires t in s.tasks && s.tasks[t].Request?
    ensures var s' := AtR(s, t, at);
      Kept(s') == Kept(s) && s'.now == s.now && s'.who == s.who && s'.tasks == s.tasks[t := Request(s.tasks[t].r, at)]
  {}

  lemma SendLeaves(s: State, t: int, accepted: bool, next: RequestAt)
    requires t in s.tasks && s.tasks[t].Request?
    ensures var s' := AfterSend(s, t, accepted, next);
      && Kept(s') == Kept(s) && s'.now == s.now && s'.who == s.who && t in s'.tasks
      && s'.tasks == s.tasks[t := s'.tasks[t]] && s'.tasks[t].Request? && s'.tasks[t].r == s.tasks[t].r
      && s'.tasks[t].rat == (if accepted then Answered(Pipeline.SentOk) else next)
  {}

  lemma OutsideKeepsSafe(p: Rules, s: State, g: Setting, l: Label, s': State)
    requires Safe(p, s, g) && FromOutside(l) && Next(p, s, l) == Some(s') && !Supersedes(p, s, g, l)
    ensures Safe(p, s', g)
  {
    forall x | x in s'.tasks ensures !Stale(p, s', g, x) { assert x in s.tasks ==> !Stale(p, s, g, x); }
  }

  lemma NextKeepsSafe(p: Rules, s: State, g: Setting, l: Label, s': State)
    requires Safe(p, s, g) && Next(p, s, l) == Some(s') && !Supersedes(p, s, g, l)
    ensures Safe(p, s', g)
  {
    hide Safe, Supersedes;
    if FromOutside(l) {
      OutsideKeepsSafe(p, s, g, l, s');
    } else {
      HasTask(p, s, l);
      hide Next;
      var t := l.t;
      if s.tasks[t].Handler? {
        HandlerKeepsSafe(p, s, g, t, l, s');
      } else {
        RequestLabel(p, s, t, l);
        if l.SendDone? || l.CreateDone? || l.ResendDone? {
          CallsKeepSafe(p, s, g, t, l, s');
        } else if t == g.u {
          OwnRowKeepsSafe(p, s, g, l, s');
        } else {
          OthersKeepSafe(p, s, g, t, l, s');
        }
      }
    }
  }

  lemma HasTask(p: Rules, s: State, l: Label)
    requires !FromOutside(l) && Next(p, s, l).Some?
    ensures l.t in s.tasks
  {}

  lemma {:induction false} RunKeepsSafe(p: Rules, s0: State, g: Setting, run: seq<Label>, s: State)
    requires Safe(p, s0, g) && Runs(p, s0, g, run, s)
    ensures Safe(p, s, g)
    decreases |run|
  {
    if run != [] {
      hide Safe, Next, Supersedes;
      var before := run[..|run| - 1];
      var x := Play(p, s0, before).value;
      RunKeepsSafe(p, s0, g, before, x);
      NextKeepsSafe(p, x, g, run[|run| - 1], s);
    }
  }

  // ----- a stale task can take it away -----

  lemma Extend(p: Rules, s0: State, g: Setting, run: seq<Label>, s: State, l: Label, s': State)
    requires Runs(p, s0, g, run, s) && Next(p, s, l) == Some(s') && !Supersedes(p, s, g, l)
    ensures Runs(p, s0, g, run + [l], s')
  {
    hide Next, Supersedes;
    PlayOn(p, s0, run, s, l);
    assert (run + [l])[..|run|] == run;
  }

  lemma LoseFromClearing(p: Rules, s0: State, g: Setting, run: seq<Label>, s: State, t: int)
    returns (run': seq<Label>, s': State)
    requires Runs(p, s0, g, run, s) && OnKey(p, s, g, t)
    requires (s.tasks[t].hat.ClearingCache? || s.tasks[t].hat.EvictingCache?)
    ensures Runs(p, s0, g, run', s') && Lost(s', g)
  {
    hide Next, Runs;
    var l := if s.tasks[t].hat.ClearingCache? then ClearCache(t) else EvictCache(t);
    OfferSteps(p, s, t, true, Healthy);
    RefreshSteps(p, s, t, Healthy);
    run', s' := run + [l], Next(p, s, l).value;
    Extend(p, s0, g, run, s, l, s');
  }

  lemma LoseFromPosting(p: Rules, s0: State, g: Setting, run: seq<Label>, s: State, t: int)
    returns (run': seq<Label>, s': State)
    requires Runs(p, s0, g, run, s) && OnKey(p, s, g, t) && g.key != ""
    requires s.tasks[t].hat.Posting? && StaleAt(p, s, g, s.tasks[t].m, s.tasks[t].hat)
    ensures Runs(p, s0, g, run', s') && Lost(s', g)
  {
    hide Next, Runs;
    OfferSteps(p, s, t, true, Healthy);
    var x := Next(p, s, Posted(t, true)).value;
    Extend(p, s0, g, run, s, Posted(t, true), x);
    run', s' := LoseFromClearing(p, s0, g, run + [Posted(t, true)], x, t);
  }

  lemma LoseFromOffering(p: Rules, s0: State, g: Setting, run: seq<Label>, s: State, t: int)
    returns (run': seq<Label>, s': State)
    requires Runs(p, s0, g, run, s) && OnKey(p, s, g, t) && g.key != ""
    requires s.tasks[t].hat.Offering? && StaleAt(p, s, g, s.tasks[t].m, s.tasks[t].hat)
    ensures Runs(p, s0, g, run', s') && Lost(s', g)
  {
    hide Next, Runs;
    OfferSteps(p, s, t, true, Healthy);
    var x := Next(p, s, Offer(t)).value;
    Extend(p, s0, g, run, s, Offer(t), x);
    run', s' := LoseFromPosting(p, s0, g, run + [Offer(t)], x, t);
  }

  /** A duplicate check that fails open lets even a repeated event through to the clearing. */
  lemma LoseFromDecided(p: Rules, s0: State, g: Setting, run: seq<Label>, s: State, t: int)
    returns (run': seq<Label>, s': State)
    requires Runs(p, s0, g, run, s) && OnKey(p, s, g, t) && g.key != ""
    requires s.tasks[t].hat.Decided? && StaleAt(p, s, g, s.tasks[t].m, s.tasks[t].hat)
    ensures Runs(p, s0, g, run', s') && Lost(s', g)
  {
    hide Next, Runs;
    var l := Pipeline.Admit(t, Broken(false));
    var x := AdmitStep(p, s, t, Broken(false));
    Extend(p, s0, g, run, s, l, x);
    run', s' := LoseFromOffering(p, s0, g, run + [l], x, t);
  }

  lemma Waits(p: Rules, s0: State, g: Setting, run: seq<Label>, s: State, d: nat) returns (s': State)
    requires Runs(p, s0, g, run, s)
    ensures s' == s.(now := s.now + d) && Runs(p, s0, g, run + [Tick(d)], s')
  {
    s' := s.(now := s.now + d);
    Extend(p, s0, g, run, s, Tick(d), s');
  }

  lemma LoseWhenOld(p: Rules, s0: State, g: Setting, run: seq<Label>, s: State, t: int)
    returns (run': seq<Label>, s': State)
    requires Runs(p, s0, g, run, s) && OnKey(p, s, g, t) && s.tasks[t].hat.Aging? && !g.Is(s.tasks[t].hat.d)
    requires s.now - s.tasks[t].hat.d.at > p.deliveryTTL
    ensures Runs(p, s0, g, run', s') && Lost(s', g)
  {
    hide Next, Runs;
    LookSteps(p, s, t, Healthy);
    var x := Next(p, s, CheckAge(t)).value;
    Extend(p, s0, g, run, s, CheckAge(t), x);
    run', s' := LoseFromClearing(p, s0, g, run + [CheckAge(t)], x, t);
  }

  /** Time passes until what the handler holds is too old. */
  lemma LoseFromAging(p: Rules, s0: State, g: Setting, run: seq<Label>, s: State, t: int)
    returns (run': seq<Label>, s': State)
    requires Runs(p, s0, g, run, s) && OnKey(p, s, g, t)
    requires s.tasks[t].hat.Aging? && StaleAt(p, s, g, s.tasks[t].m, s.tasks[t].hat)
    ensures Runs(p, s0, g, run', s') && Lost(s', g)
  {
    hide Next, Runs, Lost, Supersedes;
    var due := s.tasks[t].hat.d.at + p.deliveryTTL + 1;
    var d := if due > s.now then due - s.now else 0;
    var x := Waits(p, s0, g, run, s, d);
    run', s' := LoseWhenOld(p, s0, g, run + [Tick(d)], x, t);
  }

  lemma LoseFromFilling(p: Rules, s0: State, g: Setting, run: seq<Label>, s: State, t: int)
    returns (run': seq<Label>, s': State)
    requires Runs(p, s0, g, run, s) && OnKey(p, s, g, t) && s.tasks[t].hat.Filling? && !g.Is(s.tasks[t].hat.d)
    ensures Runs(p, s0, g, run', s') && Lost(s', g)
  {
    hide Next, Runs;
    RefreshSteps(p, s, t, Healthy);
    run', s' := run + [Fill(t)], Next(p, s, Fill(t)).value;
    Extend(p, s0, g, run, s, Fill(t), s');
  }

  lemma LoseFromLoading(p: Rules, s0: State, g: Setting, run: seq<Label>, s: State, t: int)
    returns (run': seq<Label>, s': State)
    requires Runs(p, s0, g, run, s) && OnKey(p, s, g, t)
    requires s.tasks[t].hat.Loading? && StaleAt(p, s, g, s.tasks[t].m, s.tasks[t].hat)
    ensures Runs(p, s0, g, run', s') && Lost(s', g)
  {
    hide Next, Runs;
    LookSteps(p, s, t, Healthy);
    var x := Next(p, s, Load(t, Healthy)).value;
    Extend(p, s0, g, run, s, Load(t, Healthy), x);
    run', s' := LoseFromFilling(p, s0, g, run + [Load(t, Healthy)], x, t);
  }

  /** The request has stored its setting in the cache and is about to write its row. */
  predicate Persists(p: Rules, s: State, g: Setting) {
    g.u in s.tasks && s.tasks[g.u] == Request(g.r, Persisting) && p.home(g.r) == g.key
  }

  lemma WriteRow(p: Rules, s0: State, g: Setting, run: seq<Label>, s: State) returns (run': seq<Label>, s': State)
    requires Runs(p, s0, g, run, s) && Persists(p, s, g)
    ensures Runs(p, s0, g, run', s') && Written(s', g) && s'.tasks == s.tasks[g.u := Request(g.r, Sending)]
    ensures s'.tables.enabled == s.tables.enabled && s'.now == s.now
  {
    hide Next, Runs;
    StoreSteps(p, s, g.u, Healthy);
    run', s' := run + [StoreRow(g.u, Healthy)], Next(p, s, StoreRow(g.u, Healthy)).value;
    Extend(p, s0, g, run, s, StoreRow(g.u, Healthy), s');
  }

  lemma LoseFromRow(p: Rules, s0: State, g: Setting, run: seq<Label>, s: State, t: int)
    returns (run': seq<Label>, s': State)
    requires Runs(p, s0, g, run, s) && Persists(p, s, g) && OnKey(p, s, g, t) && s.tables.enabled
    requires s.tasks[t].hat.EvictingRow? || s.tasks[t].hat.ClearingRow?
    ensures Runs(p, s0, g, run', s') && Lost(s', g)
  {
    hide Next, Runs;
    var x;
    run', x := WriteRow(p, s0, g, run, s);
    var l := if s.tasks[t].hat.ClearingRow? then ClearRow(t, Healthy) else EvictRow(t, Healthy);
    OfferSteps(p, x, t, true, Healthy);
    RefreshSteps(p, x, t, Healthy);
    s' := Next(p, x, l).value;
    Extend(p, s0, g, run', x, l, s');
    run' := run' + [l];
  }

  lemma LoseFromPersisting(p: Rules, s0: State, g: Setting, run: seq<Label>, s: State, v: int)
    returns (run': seq<Label>, s': State)
    requires Runs(p, s0, g, run, s) && Persists(p, s, g) && Stale(p, s, g, v) && s.tasks[v].Request?
    ensures Runs(p, s0, g, run', s') && Lost(s', g)
  {
    hide Next, Runs;
    var x;
    run', x := WriteRow(p, s0, g, run, s);
    StoreSteps(p, x, v, Healthy);
    s' := Next(p, x, StoreRow(v, Healthy)).value;
    Extend(p, s0, g, run', x, StoreRow(v, Healthy), s');
    run' := run' + [StoreRow(v, Healthy)];
  }

  lemma StaleLoses(p: Rules, s: State, g: Setting, t: int) returns (run: seq<Label>, s': State)
    requires Persists(p, s, g) && g.key != "" && Stale(p, s, g, t)
    ensures Runs(p, s, g, run, s') && Lost(s', g)
  {
    assert Runs(p, s, g, [], s);
    hide Runs;
    if s.tasks[t].Request? {
      run, s' := LoseFromPersisting(p, s, g, [], s, t);
    } else {
      match s.tasks[t].hat {
        case Aging(_) => run, s' := LoseFromAging(p, s, g, [], s, t);
        case Loading => run, s' := LoseFromLoading(p, s, g, [], s, t);
        case Filling(_) => run, s' := LoseFromFilling(p, s, g, [], s, t);
        case EvictingCache => run, s' := LoseFromClearing(p, s, g, [], s, t);
        case EvictingRow => run, s' := LoseFromRow(p, s, g, [], s, t);
        case Decided(_) => run, s' := LoseFromDecided(p, s, g, [], s, t);
        case Offering(_) => run, s' := LoseFromOffering(p, s, g, [], s, t);
        case Posting(_) => run, s' := LoseFromPosting(p, s, g, [], s, t);
        case ClearingCache => run, s' := LoseFromClearing(p, s, g, [], s, t);
        case ClearingRow => run, s' := LoseFromRow(p, s, g, [], s, t);
      }
    }
  }

  // ----- exactly when a setting stays -----

  lemma StoredAndSafe(p: Rules, s: State, u: int) returns (s1: State)
    requires u in s.tasks && s.tasks[u].Request? && s.tasks[u].rat.Caching? && u in s.who
    ensures var g := SettingOf(p, s, u);
      && Next(p, s, StoreCache(u)) == Some(s1) && Persists(p, s1, g)
      && s1.tasks.Keys == s.tasks.Keys && (forall t :: t in s1.tasks ==> (Stale(p, s1, g, t) <==> Stale(p, s, g, t)))
      && ((forall t :: t in s.tasks ==> !Stale(p, s, g, t)) ==> Safe(p, s1, g))
  {
    hide Next;
    StoreSteps(p, s, u, Healthy);
    s1 := Next(p, s, StoreCache(u)).value;
  }

  lemma StaysIff(p: Rules, s1: State, g: Setting)
    requires Persists(p, s1, g) && g.key != ""
    requires ((forall t :: t in s1.tasks ==> !Stale(p, s1, g, t)) ==> Safe(p, s1, g))
    ensures (forall run, s' :: Runs(p, s1, g, run, s') ==> !Lost(s', g)) <==>
      (forall t :: t in s1.tasks ==> !Stale(p, s1, g, t))
  {
    hide Next, Runs, Stale;
    if t :| t in s1.tasks && Stale(p, s1, g, t) {
      var run, s' := StaleLoses(p, s1, g, t);
    } else {
      forall run, s' | Runs(p, s1, g, run, s') ensures !Lost(s', g) { RunKeepsSafe(p, s1, g, run, s'); }
    }
  }

  /** A request of the bridge is about to store its setting. Whatever interleaving follows, as long as no
      newer setting of the session is stored, no handler that has read this one uses it up, the process
      goes on and the request's own row is stored, the setting stays in the cache and, once written, in
      the table: exactly if no other task of the same trimmed session is now in a position to undo it with
      something older. */
  lemma SettingStaysIff(cfg: Config, decode: string -> Option<Frame>, s: State, u: int) returns (s1: State)
    requires Reachable(Bridge(cfg, decode), s) && u in s.tasks && s.tasks[u].Request? && s.tasks[u].rat.Caching?
    ensures Next(Bridge(cfg, decode), s, StoreCache(u)) == Some(s1)
    ensures var p, g := Bridge(cfg, decode), SettingOf(Bridge(cfg, decode), s, u);
      (forall run, s' :: Runs(p, s1, g, run, s') ==> !Lost(s', g)) <==>
        (forall t :: t in s.tasks ==> !Stale(p, s, g, t))
  {
    var p, g := Bridge(cfg, decode), SettingOf(Bridge(cfg, decode), s, u);
    ReachableKeeps(p, s);
    assert TaskOk(p, s, u);
    hide Next, Runs, Books, Isolated, Spaced, Stale, Lost, Safe, Reachable;
    s1 := StoredAndSafe(p, s, u);
    StaysIff(p, s1, g);
  }

  // ----- runs that lose a setting -----

  lemma ReachOn(p: Rules, s: State, run: seq<Label>, s': State)
    requires Reachable(p, s) && Play(p, s, run) == Some(s')
    ensures Reachable(p, s')
  {
    var enabled, now, before :| Play(p, Init(enabled, now), before) == Some(s);
    PlayConcat(p, Init(enabled, now), before, run);
  }

  /** A request without dedupe key and callback address, up to storing its setting. */
  lemma Submitted(p: Rules, s: State, t: int, r: SendRequest) returns (s': State)
    requires Reachable(p, s) && t !in s.who && p.home(r) != "" && r.dedupeKey == "" && p.callbackOk(r.callbackUrl)
    ensures Reachable(p, s') && Kept(s') == Kept(s) && s'.now == s.now
    ensures s'.tasks == s.tasks[t := Request(r, Caching)] && s'.who == s.who[t := FromRequest(r)]
  {
    var x := s.(tasks := s.tasks[t := Request(r, Received)], who := s.who[t := FromRequest(r)]);
    PlayOne(p, s, Submit(t, r));
    ReachOn(p, s, [Submit(t, r)], x);
    AdmitIsNext(p, x, t, Healthy);
    hide Next;
    s' := AdmitRequest(p, x, t, Healthy);
    PlayOne(p, x, AdmitIn(t, Healthy));
    ReachOn(p, x, [AdmitIn(t, Healthy)], s');
  }

  lemma StoreTwo(p: Rules, s: State, u: int, v: int) returns (s': State)
    requires Reachable(p, s) && u in s.tasks && v in s.tasks && u != v && s.tables.enabled
    requires s.tasks[u].Request? && s.tasks[u].rat.Caching? && s.tasks[v].Request? && s.tasks[v].rat.Caching?
    requires p.home(s.tasks[u].r) == p.home(s.tasks[v].r)
    ensures Reachable(p, s') && u in s'.tasks && v in s'.tasks
    ensures s'.tasks[u] == Request(s.tasks[u].r, Sending) && s'.tasks[v] == Request(s.tasks[v].r, Sending)
    ensures var key, first, second := p.home(s.tasks[u].r), s.tasks[u].r, s.tasks[v].r;
      && key in s'.cache && s'.cache[key] == Session(second.callbackUrl, second.stream, s.now)
      && key in s'.tables.sessions && s'.tables.sessions[key] == Session(first.callbackUrl, first.stream, s.now)
  {
    hide Next, Reachable;
    StoreSteps(p, s, u, Healthy);
    var s1 := Taken(p, s, StoreCache(u));
    StoreSteps(p, s1, v, Healthy);
    var s2 := Taken(p, s1, StoreCache(v));
    StoreSteps(p, s2, v, Healthy);
    var s3 := Taken(p, s2, StoreRow(v, Healthy));
    StoreSteps(p, s3, u, Healthy);
    s' := Taken(p, s3, StoreRow(u, Healthy));
  }

  lemma Taken(p: Rules, s: State, l: Label) returns (s': State)
    requires Reachable(p, s) && Next(p, s, l).Some?
    ensures Next(p, s, l) == Some(s') && Reachable(p, s')
  {
    PlayOne(p, s, l);
    s' := Next(p, s, l).value;
    ReachOn(p, s, [l], s');
  }

  /** Two requests alone are enough, without a fault: both have stored and sent, the cache holds the later
      setting and the table the earlier one, which a restart will bring back. */
  lemma TwoSettersDisagree(cfg: Config, decode: string -> Option<Frame>) returns (s: State)
    ensures Reachable(Bridge(cfg, decode), s) && 1 in s.tasks && 2 in s.tasks
    ensures s.tasks[1] == Request(SendRequest("s", "", "", true, false), Sending)
    ensures s.tasks[2] == Request(SendRequest("s", "", "", false, false), Sending)
    ensures "s" in s.cache && s.cache["s"] == Session("", false, 0)
    ensures "s" in s.tables.sessions && s.tables.sessions["s"] == Session("", true, 0)
  {
    var p := Bridge(cfg, decode);
    TrimFixed("s", IsSpace);
    assert Play(p, Init(true, 0), []) == Some(Init(true, 0));
    s := Submitted(p, Init(true, 0), 1, SendRequest("s", "", "", true, false));
    s := Submitted(p, s, 2, SendRequest("s", "", "", false, false));
    hide Reachable, Bridge;
    var before := s;
    s := StoreTwo(p, s, 1, 2);
  }

  /** A handler that is about to clear its session takes a setting with it that a request made since: from
      every state where both are under way there is a run, without a fault, after which the request goes
      on to send and no trace of its setting is left. */
  lemma NewerSettingLost(p: Rules, s: State, t: int, u: int) returns (run: seq<Label>, s': State)
    requires t in s.tasks && s.tasks[t].Handler? && s.tasks[t].hat.ClearingCache? && s.tables.enabled
    requires u in s.tasks && s.tasks[u].Request? && s.tasks[u].rat.Caching?
    requires p.home(s.tasks[u].r) == p.session(s.tasks[t].m)
    ensures Play(p, s, run) == Some(s')
    ensures var key := p.home(s.tasks[u].r);
      u in s'.tasks && s'.tasks[u] == Request(s.tasks[u].r, Sending) && key !in s'.cache && key !in s'.tables.sessions
  {
    assert Play(p, s, []) == Some(s);
    hide Next, Play;
    run, s' := StoreAlone(p, s, [], s, u, Healthy);
    var mid := s';
    run := ClearAlone(p, s, run, mid, t, Healthy);
    s' := Play(p, s, run).value;
  }

  /** A final event of a session without streaming has been delivered. */
  lemma ToClearing(cfg: Config, decode: string -> Option<Frame>, raw: string) returns (s: State)
    requires decode(raw).Some? && cfg.deliveryTTL >= 0
    requires var m := MessageOf(raw, decode(raw).value); Passes(cfg, m) && IsFinalEvent(m) && NotBlank(m.sessionKey)
    ensures Reachable(Bridge(cfg, decode), s) && s.tables.enabled && s.now == 0 && s.who.Keys == {1, 2}
    ensures 2 in s.tasks && s.tasks[2] == Handler(MessageOf(raw, decode(raw).value), ClearingCache)
  {
    var p, m := Bridge(cfg, decode), MessageOf(raw, decode(raw).value);
    s := ToDecided(cfg, decode, raw);
    var x := AdmitStep(p, s, 2, Healthy);
    PlayOne(p, s, Pipeline.Admit(2, Healthy));
    ReachOn(p, s, [Pipeline.Admit(2, Healthy)], x);
    hide Next;
    NotBlankIsTrim(m.sessionKey);
    var run := PostAlone(p, x, 2, true);
    s := Play(p, x, run).value;
    ReachOn(p, x, run, s);
  }

  lemma ToDecided(cfg: Config, decode: string -> Option<Frame>, raw: string) returns (s: State)
    requires decode(raw).Some? && cfg.deliveryTTL >= 0
    requires var m := MessageOf(raw, decode(raw).value); Passes(cfg, m) && NotBlank(m.sessionKey)
    ensures Reachable(Bridge(cfg, decode), s) && s.tables.enabled && s.tables.dedupe == map[] && s.now == 0
    ensures s.who.Keys == {1, 2}
    ensures 2 in s.tasks && s.tasks[2] == Handler(MessageOf(raw, decode(raw).value), Decided(Session("", false, 0)))
  {
    var p, m := Bridge(cfg, decode), MessageOf(raw, decode(raw).value);
    var key := TrimSpace(m.sessionKey);
    NotBlankIsTrim(m.sessionKey);
    TrimSpaceIdempotent(m.sessionKey);
    assert p.read(raw) == Some(m) && p.session(m) == key && p.passes(m) && p.deliveryTTL >= 0;
    var r := SendRequest(key, "", "", false, false);
    assert p.home(r) == key && p.callbackOk("");
    hide Bridge, TrimSpace, Passes, MessageOf, Reachable;
    s := Settled(p, r);
    s := Arrived(p, s, raw, key);
  }

  /** One request has stored its setting. */
  lemma Settled(p: Rules, r: SendRequest) returns (s: State)
    requires p.home(r) != "" && r.dedupeKey == "" && p.callbackOk(r.callbackUrl)
    ensures Reachable(p, s) && s.tables.enabled && s.tables.dedupe == map[] && s.now == 0 && s.who.Keys == {1}
    ensures s.cache == map[p.home(r) := Session(r.callbackUrl, r.stream, 0)]
  {
    assert Play(p, Init(true, 0), []) == Some(Init(true, 0));
    s := Submitted(p, Init(true, 0), 1, r);
    hide Reachable, Next;
    StoreSteps(p, s, 1, Healthy);
    s := Taken(p, s, StoreCache(1));
    StoreSteps(p, s, 1, Healthy);
    s := Taken(p, s, StoreRow(1, Healthy));
  }

  /** An event of the session arrives and reads the setting from the cache. */
  lemma Arrived(p: Rules, s: State, raw: string, key: string) returns (s': State)
    requires Reachable(p, s) && s.now == 0 && s.who.Keys == {1} && key in s.cache && s.cache[key].at == 0
    requires p.deliveryTTL >= 0
    requires p.read(raw).Some? && p.passes(p.read(raw).value) && p.session(p.read(raw).value) == key
    ensures Reachable(p, s') && s'.tables == s.tables && s'.now == 0 && s'.who.Keys == {1, 2}
    ensures 2 in s'.tasks && s'.tasks[2] == Handler(p.read(raw).value, Decided(s.cache[key]))
  {
    s' := Arrives(p, s, raw);
    hide Reachable, Next;
    LookSteps(p, s', 2, Healthy);
    s' := Taken(p, s', Look(2));
    LookSteps(p, s', 2, Healthy);
    s' := Taken(p, s', CheckAge(2));
  }

  lemma Arrives(p: Rules, s: State, raw: string) returns (s': State)
    requires Reachable(p, s) && 2 !in s.who && p.read(raw).Some?
    ensures Reachable(p, s')
    ensures s' == s.(who := s'.who, tasks := s.tasks[2 := Handler(p.read(raw).value, HandlerAt.Arrived)])
    ensures s'.who.Keys == s.who.Keys + {2}
  {
    s' := Taken(p, s, Arrive(2, raw));
  }

  /** And such states are reached, for every final event of a session: a request without streaming, the
      event, its delivery, and the next request before the handler has cleared the session. */
  lemma NewerSettingLostHappens(cfg: Config, decode: string -> Option<Frame>, raw: string) returns (s: State)
    requires decode(raw).Some? && cfg.deliveryTTL >= 0
    requires var m := MessageOf(raw, decode(raw).value); Passes(cfg, m) && IsFinalEvent(m) && NotBlank(m.sessionKey)
    ensures Reachable(Bridge(cfg, decode), s) && 3 in s.tasks
    ensures var key := TrimSpace(MessageOf(raw, decode(raw).value).sessionKey);
      && s.tasks[3] == Request(SendRequest(key, "", "", true, false), Sending)
      && key !in s.cache && key !in s.tables.sessions
  {
    var p, m := Bridge(cfg, decode), MessageOf(raw, decode(raw).value);
    var key := TrimSpace(m.sessionKey);
    NotBlankIsTrim(m.sessionKey);
    TrimSpaceIdempotent(m.sessionKey);
    s := ToClearing(cfg, decode, raw);
    s := Submitted(p, s, 3, SendRequest(key, "", "", true, false));
    var run, s' := NewerSettingLost(p, s, 2, 3);
    ReachOn(p, s, run, s');
    s := s';
  }
}
