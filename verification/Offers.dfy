/** From a handler's decision to the address it offers its event to, through any interleaving of the
    pipelines (internal/app/app.go). */
module Offers {
  import opened GoText
  import opened Frames
  import opened Storage
  import opened Delivery
  import opened Pipeline

  /** A step of task u changes u's place and, if it is an offer, u's entry among the offers. */
  ghost predicate Touches(p: Rules, s: State, s': State, u: int, l: Label) {
    && u in s.tasks && u in s'.tasks && s'.tasks == s.tasks[u := s'.tasks[u]] && s'.who == s.who
    && if l.Offer? then
         && s.tasks[u].Handler? && s.tasks[u].hat.Offering?
         && s'.offers == s.offers[u := Address(p, s.tasks[u].hat.d)]
       else s'.offers == s.offers
  }

  lemma OfferTouches(p: Rules, s: State, u: int, l: Label)
    requires TaskOk(p, s, u) && s.tasks[u].Handler? && OfferNext(p, s, u, l).Some? && !l.Admit?
    ensures Touches(p, s, OfferNext(p, s, u, l).value, u, l)
  {}

  lemma AdmitTouches(p: Rules, s: State, u: int, l: Label)
    requires Books(p, s) && TaskOk(p, s, u) && l.Admit? && s.tasks[u].Handler? && s.tasks[u].hat.Decided?
    ensures Touches(p, s, AdmitHandler(p, s, u, s.tasks[u].hat.d, l.f), u, l)
  {
    hide Pipeline.Register;
    RegisterLeavesSettings(s, u, "outbound", p.outKey(s.tasks[u].m), p.dedupeTTL, l.f);
  }

  lemma AdmitInTouches(p: Rules, s: State, u: int, l: Label)
    requires Books(p, s) && TaskOk(p, s, u) && l.AdmitIn? && s.tasks[u].Request?
    ensures Touches(p, s, AdmitRequest(p, s, u, l.f), u, l)
  {
    hide Pipeline.Register;
    RegisterLeavesSettings(s, u, "inbound", p.inKey(s.tasks[u].r), p.dedupeTTL, l.f);
  }

  lemma TaskTouches(p: Rules, s: State, u: int, l: Label)
    requires Books(p, s) && TaskNext(p, s, u, l).Some? && !FromOutside(l)
    ensures Touches(p, s, TaskNext(p, s, u, l).value, u, l)
  {
    assert TaskOk(p, s, u);
    if l.Admit? {
      AdmitTouches(p, s, u, l);
    } else if l.AdmitIn? {
      AdmitInTouches(p, s, u, l);
    } else if s.tasks[u].Request? {
      if l.SendDone? || l.CreateDone? || l.ResendDone? { GatewayMoves(p, s, u, l); } else { RequestMoves(p, s, u, l); }
    } else if l.Look? || l.CheckAge? || l.Load? {
      LookupMoves(p, s, u, l);
    } else if l.Fill? || l.EvictCache? || l.EvictRow? {
      RefreshMoves(p, s, u, l);
    } else {
      OfferTouches(p, s, u, l);
    }
  }

  /** Handler t has decided on settings d: it offers under d or not at all. */
  ghost predicate Bound(p: Rules, s: State, t: int, d: Session) {
    && t in s.who
    && if t in s.offers then s.offers[t] == Address(p, d)
       else t in s.tasks ==>
         s.tasks[t].Handler?
         && (s.tasks[t].hat == Decided(d) || s.tasks[t].hat == Offering(d) || s.tasks[t].hat.HandlerEnded?)
  }

  lemma OwnStepKeepsBound(p: Rules, s: State, t: int, d: Session, l: Label)
    requires Books(p, s) && Bound(p, s, t, d) && TaskNext(p, s, t, l).Some? && !FromOutside(l)
    ensures Bound(p, TaskNext(p, s, t, l).value, t, d)
  {
    assert TaskOk(p, s, t);
    TaskTouches(p, s, t, l);
  }

  lemma NextKeepsBound(p: Rules, s: State, t: int, d: Session, l: Label)
    requires Books(p, s) && Bound(p, s, t, d) && Next(p, s, l).Some?
    ensures Bound(p, Next(p, s, l).value, t, d)
  {
    if !FromOutside(l) {
      hide Books, TaskNext;
      if l.t == t { OwnStepKeepsBound(p, s, t, d, l); } else { TaskTouches(p, s, l.t, l); }
    }
  }

  lemma {:induction false} RunKeepsBound(p: Rules, s0: State, t: int, d: Session, run: seq<Label>)
    requires Books(p, s0) && Isolated(p, s0) && Spaced(p, s0) && !p.overrides("")
    requires Bound(p, s0, t, d) && Play(p, s0, run).Some?
    ensures Bound(p, Play(p, s0, run).value, t, d)
    decreases |run|
  {
    if run != [] {
      var before := run[..|run| - 1];
      hide Books, Isolated, Spaced, Bound, Next;
      RunKeepsBound(p, s0, t, d, before);
      RunKeeps(p, s0, before);
      NextKeepsBound(p, Play(p, s0, before).value, t, d, run[|run| - 1]);
    }
  }

  /** A handler that decided on settings d offers its event, whatever happens in between, to d's callback
      exactly when that is not blank, and to the default webhook otherwise. */
  lemma OffersAsDecided(cfg: Config, decode: string -> Option<Frame>, s: State, t: int, d: Session, run: seq<Label>)
    requires Reachable(Bridge(cfg, decode), s) && t in s.tasks && s.tasks[t].Handler? && s.tasks[t].hat == Decided(d)
    requires Play(Bridge(cfg, decode), s, run).Some?
    ensures var s' := Play(Bridge(cfg, decode), s, run).value;
      t in s'.offers ==>
        && (NotBlank(d.callbackUrl) ==> s'.offers[t] == d.callbackUrl)
        && (!NotBlank(d.callbackUrl) ==> s'.offers[t] == cfg.webhookUrl)
  {
    var p := Bridge(cfg, decode);
    ReachableKeeps(p, s);
    assert TaskOk(p, s, t);
    hide Books, Isolated, Spaced, Play, Reachable, NotBlank;
    RunKeepsBound(p, s, t, d, run);
  }
}
