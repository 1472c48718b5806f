/** Runs of the two pipelines on a healthy, enabled store that nobody cleans up, with any interleaving
    and any number of restarts: what deduplication promises there outright. */
module HealthyRuns {
  import opened GoText
  import opened Frames
  import opened Storage
  import opened Delivery
  import opened Fingerprint
  import opened Pipeline
  import SessionKeys

  predicate Untroubled(l: Label) {
    match l
    case Load(_, f) => f.Healthy?
    case EvictRow(_, f) => f.Healthy?
    case Admit(_, f) => f.Healthy?
    case ClearRow(_, f) => f.Healthy?
    case AdmitIn(_, f) => f.Healthy?
    case StoreRow(_, f) => f.Healthy?
    case CleanUp(_) => false
    case _ => true
  }

  ghost predicate HealthyRun(run: seq<Label>) {
    forall i :: 0 <= i < |run| ==> Untroubled(run[i])
  }

  ghost predicate KeysNotBlank(p: Rules) {
    && (forall m :: p.passes(m) ==> NotBlank(p.outKey(m)))
    && (forall r :: NotBlank(p.inKey(r)))
  }

  /** Deduplication is in force: whoever got past it did so by an insert of its own. */
  ghost predicate InForce(s: State) {
    s.tables.enabled && !s.cleaned && forall t :: t in s.tickets ==> s.tickets[t].clean
  }

  lemma HealthyRegister(s: State, t: int, kind: string, key: string, ttl: int)
    requires InForce(s) && NotBlank(key)
    ensures InForce(Pipeline.Register(s, t, kind, key, ttl, Healthy).0)
  {}

  lemma TaskKeepsInForce(p: Rules, s: State, t: int, l: Label)
    requires KeysNotBlank(p) && Books(p, s) && InForce(s) && Untroubled(l) && !FromOutside(l)
    requires TaskNext(p, s, t, l).Some?
    ensures InForce(TaskNext(p, s, t, l).value)
  {
    assert TaskOk(p, s, t);
    var x := s.tasks[t];
    if l.Admit? && x.Handler? && x.hat.Decided? && (x.hat.d.stream || p.final(x.m)) {
      HealthyRegister(s, t, "outbound", p.outKey(x.m), p.dedupeTTL);
    } else if l.AdmitIn? {
      if x.r.dedupeKey != "" { HealthyRegister(s, t, "inbound", p.inKey(x.r), p.dedupeTTL); }
    } else {
      OthersKeepTickets(p, s, t, l);
    }
  }

  lemma NextKeepsInForce(p: Rules, s: State, l: Label)
    requires KeysNotBlank(p) && Books(p, s) && InForce(s) && Untroubled(l) && Next(p, s, l).Some?
    ensures InForce(Next(p, s, l).value)
  {
    hide TaskNext, Books, KeysNotBlank;
    if !FromOutside(l) { TaskKeepsInForce(p, s, l.t, l); }
  }

  lemma {:induction false} RunKeepsInForce(p: Rules, now: int, run: seq<Label>)
    requires KeysNotBlank(p) && !p.overrides("") && HealthyRun(run) && Play(p, Init(true, now), run).Some?
    ensures InForce(Play(p, Init(true, now), run).value)
    decreases |run|
  {
    if run != [] {
      var before := run[..|run| - 1];
      assert Untroubled(run[|run| - 1]);
      RunKeepsInForce(p, now, before);
      RunKeeps(p, Init(true, now), before);
      NextKeepsInForce(p, Play(p, Init(true, now), before).value, run[|run| - 1]);
    }
  }

  lemma BridgeKeysNotBlank(cfg: Config, decode: string -> Option<Frame>)
    ensures KeysNotBlank(Bridge(cfg, decode))
  {
    var p := Bridge(cfg, decode);
    forall m | p.passes(m) ensures NotBlank(p.outKey(m)) {
      cfg.ForwardedIsTyped(m.eventType);
      TypedEventsHaveKeys(cfg.hash, m);
    }
    forall r ensures NotBlank(p.inKey(r)) { SessionKeys.PrefixesApart(r.sessionKey, r.dedupeKey, ""); }
  }

  /** Each frame reaches the webhooks at most once: two offers of byte-identical frames are one. */
  lemma EachFrameOfferedOnce(cfg: Config, decode: string -> Option<Frame>, now: int, run: seq<Label>, t: int, u: int)
    requires HealthyRun(run) && Play(Bridge(cfg, decode), Init(true, now), run).Some?
    requires var s := Play(Bridge(cfg, decode), Init(true, now), run).value;
      t in s.offers && u in s.offers && t in s.who && u in s.who && s.who[t] == s.who[u]
    ensures t == u
  {
    var p := Bridge(cfg, decode);
    var s := Play(p, Init(true, now), run).value;
    BridgeKeysNotBlank(cfg, decode);
    RunKeepsInForce(p, now, run);
    RunKeeps(p, Init(true, now), run);
    assert OfferOk(p, s, t) && OfferOk(p, s, u);
    if t != u { FrameOfferedOnce(cfg, decode, s, t, u); }
  }

  /** The gateway accepts at most one message for a session and a dedupe key. */
  lemma EachKeySentOnce(cfg: Config, decode: string -> Option<Frame>, now: int, run: seq<Label>, t: int, u: int)
    requires HealthyRun(run) && Play(Bridge(cfg, decode), Init(true, now), run).Some?
    requires var s := Play(Bridge(cfg, decode), Init(true, now), run).value;
      && t in s.sent && u in s.sent && t in s.who && u in s.who && s.who[t].FromRequest? && s.who[u].FromRequest?
      && s.who[t].r.sessionKey == s.who[u].r.sessionKey && s.who[t].r.dedupeKey == s.who[u].r.dedupeKey != ""
    ensures t == u
  {
    var p := Bridge(cfg, decode);
    var s := Play(p, Init(true, now), run).value;
    BridgeKeysNotBlank(cfg, decode);
    RunKeepsInForce(p, now, run);
    if t != u { KeySentOnce(cfg, decode, s, t, u); }
  }
}
