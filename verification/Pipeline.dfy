/** The bridge's two pipelines interleaved: one goroutine per gateway frame (internal/app/app.go) and
    one per send request (internal/httpapi/server.go), sharing the delivery cache, the two tables and
    the clock. A step is one critical section, one statement on the database or one outside call.
    Any number of goroutines run; the process may restart at any step and lose all but the tables. */
module Pipeline {
  import opened GoText
  import opened Frames
  import opened Storage
  import opened Delivery
  import opened Fingerprint
  import SessionKeys

  /** A send request after validation: its key is resolved, its other texts trimmed. */
  datatype SendRequest = SendRequest(
    sessionKey: string, dedupeKey: string, callbackUrl: string, stream: bool, createSession: bool)

  /** What the steps ask about messages and requests. Bridge below gives the bridge's own answers. */
  datatype Rules = Rules(
    read: string -> Option<Message>,  // decode a frame and extract its fields
    passes: Message -> bool,
    final: Message -> bool,
    session: Message -> string,       // the key its settings are kept under
    outKey: Message -> string,
    inKey: SendRequest -> string,
    home: SendRequest -> string,      // the key a request's settings are kept under
    callbackOk: string -> bool,
    overrides: string -> bool,        // a callback address that replaces the default webhook
    webhookUrl: string,
    deliveryTTL: int,
    dedupeTTL: int)

  function Bridge(cfg: Config, decode: string -> Option<Frame>): Rules {
    Rules(
      raw => if decode(raw).None? then None else Some(MessageOf(raw, decode(raw).value)),
      m => Passes(cfg, m),
      m => IsFinalEvent(m),
      (m: Message) => TrimSpace(m.sessionKey),
      m => OutboundKey(cfg.hash, m),
      (r: SendRequest) => SessionKeys.InboundKey(r.sessionKey, r.dedupeKey),
      (r: SendRequest) => TrimSpace(r.sessionKey),
      url => SessionKeys.CallbackOk(url),
      url => NotBlank(url),
      cfg.webhookUrl, cfg.deliveryTTL, cfg.dedupeTTL)
  }

  /** Where a frame handler stands: what it does next, with the settings it holds. */
  datatype HandlerAt =
    | Arrived | Aging(d: Session) | Loading | Filling(d: Session) | EvictingCache | EvictingRow
    | Decided(d: Session) | Offering(d: Session) | Posting(d: Session) | ClearingCache | ClearingRow | HandlerEnded

  /** How far a handler is, seen from deduplication. */
  datatype Phase = Undecided | Cleared | Offered | Over

  function PhaseOf(at: HandlerAt): Phase {
    if at.HandlerEnded? then Over
    else if at.Offering? then Cleared
    else if at.Posting? || at.ClearingCache? || at.ClearingRow? then Offered
    else Undecided
  }

  datatype RequestAt = Received | Caching | Persisting | Sending | Creating | Resending | Answered(a: Answer)

  datatype Answer = SentOk | DuplicateOk | BadCallback | Failed

  datatype Task = Handler(m: Message, hat: HandlerAt) | Request(r: SendRequest, rat: RequestAt)

  /** What started a task; kept for good. */
  datatype Origin = FromFrame(raw: string) | FromRequest(r: SendRequest)

  /** How a task got past deduplication: when, with which key, and whether its own insert succeeded
      (`clean`) or the check was skipped or failed open. */
  datatype Ticket = Ticket(key: string, at: int, clean: bool)

  datatype State = State(
    now: int,
    tables: Tables,
    cache: map<string, Session>,
    tasks: map<int, Task>,
    // history, never read by a step
    who: map<int, Origin>,
    tickets: map<int, Ticket>,
    owners: map<string, int>,           // the task whose insert made the row of a key
    refused: map<int, int>,             // a task refused as duplicate, and the owner of the row it met
    offers: map<int, string>,           // the address a handler offered its event to
    asked: map<(string, string), int>,  // a (session, callback) pair, and the request that first stored it
    sent: set<int>,                     // requests whose message the gateway accepted
    cleaned: bool)                      // whether a cleanup ever ran

  datatype SendResult = Accepted | SessionNotFound | Rejected

  datatype Label =
    | Arrive(t: int, raw: string) | Look(t: int) | CheckAge(t: int) | Load(t: int, f: Fault) | Fill(t: int)
    | EvictCache(t: int) | EvictRow(t: int, f: Fault) | Admit(t: int, f: Fault) | Offer(t: int)
    | Posted(t: int, ok: bool) | ClearCache(t: int) | ClearRow(t: int, f: Fault)
    | Submit(t: int, r: SendRequest) | AdmitIn(t: int, f: Fault) | StoreCache(t: int) | StoreRow(t: int, f: Fault)
    | SendDone(t: int, res: SendResult) | CreateDone(t: int, ok: bool) | ResendDone(t: int, res: SendResult)
    | Tick(d: nat) | CleanUp(f: Fault) | Restart

  function Init(enabled: bool, now: int): State {
    State(now, Tables(enabled, map[], map[]), map[], map[], map[], map[], map[], map[], map[], map[], {}, false)
  }

  // ----- steps -----

  function AtH(s: State, t: int, at: HandlerAt): State
    requires t in s.tasks && s.tasks[t].Handler?
  {
    s.(tasks := s.tasks[t := s.tasks[t].(hat := at)])
  }

  function AtR(s: State, t: int, at: RequestAt): State
    requires t in s.tasks && s.tasks[t].Request?
  {
    s.(tasks := s.tasks[t := s.tasks[t].(rat := at)])
  }

  /** One attempt to insert a dedupe key: the state after it, and whether the task may go on. */
  function Register(s: State, t: int, kind: string, key: string, ttl: int, f: Fault): (State, bool) {
    var tables := s.tables.Insert(kind, key, ttl, s.now, f);
    var inserted := key !in s.tables.dedupe && key in tables.dedupe;
    var answer := s.tables.IsNew(key, f);
    var go := answer != Some(false);
    (s.(tables := tables,
        owners := if inserted then s.owners[key := t] else s.owners,
        tickets := if go then s.tickets[t := Ticket(key, s.now, answer.Some? && inserted)] else s.tickets,
        refused := if !go && key in s.owners then s.refused[t := s.owners[key]] else s.refused), go)
  }

  /** The handler's steps that look settings up. */
  function LookupNext(p: Rules, s: State, t: int, l: Label): Option<State>
    requires t in s.tasks && s.tasks[t].Handler?
  {
    var m, at := s.tasks[t].m, s.tasks[t].hat;
    var key := p.session(m);
    if l.Look? && at.Arrived? then
      Some(AtH(s, t, if !p.passes(m) then HandlerEnded else if key in s.cache then Aging(s.cache[key]) else Loading))
    else if l.CheckAge? && at.Aging? then
      Some(AtH(s, t, if s.now - at.d.at > p.deliveryTTL then EvictingCache else Decided(at.d)))
    else if l.Load? && at.Loading? then
      Some(AtH(s, t, match s.tables.Lookup(key, l.f)
                     case Some(Some(row)) => Filling(row)
                     case _ => Decided(NO_OVERRIDE)))
    else None
  }

  /** The handler's steps that bring cache and table up to date with what it found. */
  function RefreshNext(p: Rules, s: State, t: int, l: Label): Option<State>
    requires t in s.tasks && s.tasks[t].Handler?
  {
    var at := s.tasks[t].hat;
    var key := p.session(s.tasks[t].m);
    if l.Fill? && at.Filling? then
      Some(AtH(s.(cache := s.cache[key := at.d]), t, Decided(at.d)))
    else if l.EvictCache? && at.EvictingCache? then
      Some(AtH(s.(cache := s.cache - {key}), t, EvictingRow))
    else if l.EvictRow? && at.EvictingRow? then
      Some(AtH(s.(tables := s.tables.Delete(key, l.f)), t, Decided(NO_OVERRIDE)))
    else None
  }

  /** The finality test of a handler, and then its deduplication. */
  function AdmitHandler(p: Rules, s: State, t: int, d: Session, f: Fault): State
    requires t in s.tasks && s.tasks[t].Handler?
  {
    var m := s.tasks[t].m;
    if !d.stream && !p.final(m) then AtH(s, t, HandlerEnded)
    else
      var (s1, go) := Register(s, t, "outbound", p.outKey(m), p.dedupeTTL, f);
      AtH(s1, t, if go then Offering(d) else HandlerEnded)
  }

  /** Where an event goes under settings d. */
  function Address(p: Rules, d: Session): string { if p.overrides(d.callbackUrl) then d.callbackUrl else p.webhookUrl }

  /** The handler's steps from deduplication on. */
  function OfferNext(p: Rules, s: State, t: int, l: Label): Option<State>
    requires t in s.tasks && s.tasks[t].Handler?
  {
    var at := s.tasks[t].hat;
    var key := p.session(s.tasks[t].m);
    if l.Admit? && at.Decided? then Some(AdmitHandler(p, s, t, at.d, l.f))
    else if l.Offer? && at.Offering? then
      Some(AtH(s.(offers := s.offers[t := Address(p, at.d)]), t, Posting(at.d)))
    else if l.Posted? && at.Posting? then
      Some(AtH(s, t, if l.ok && !at.d.stream && key != "" then ClearingCache else HandlerEnded))
    else if l.ClearCache? && at.ClearingCache? then
      Some(AtH(s.(cache := s.cache - {key}), t, ClearingRow))
    else if l.ClearRow? && at.ClearingRow? then
      Some(AtH(s.(tables := s.tables.Delete(key, l.f)), t, HandlerEnded))
    else None
  }

  /** Deduplication of a request, and then the check of its callback address. */
  function AdmitRequest(p: Rules, s: State, t: int, f: Fault): State
    requires t in s.tasks && s.tasks[t].Request?
  {
    var r := s.tasks[t].r;
    var (s1, go) :=
      if r.dedupeKey == "" then (s, true)
      else Register(s, t, "inbound", p.inKey(r), p.dedupeTTL, f);
    AtR(s1, t, if !go then Answered(DuplicateOk)
               else if p.callbackOk(r.callbackUrl) then Caching else Answered(BadCallback))
  }

  /** The first request to store a callback address for a key is remembered. */
  function Noted(s: State, key: string, t: int): map<(string, string), int>
    requires t in s.tasks && s.tasks[t].Request?
  {
    var a := (key, s.tasks[t].r.callbackUrl);
    if a in s.asked then s.asked else s.asked[a := t]
  }

  function RequestNext(p: Rules, s: State, t: int, l: Label): Option<State>
    requires t in s.tasks && s.tasks[t].Request?
  {
    var r, at := s.tasks[t].r, s.tasks[t].rat;
    var key := p.home(r);
    if l.AdmitIn? && at.Received? then Some(AdmitRequest(p, s, t, l.f))
    else if l.StoreCache? && at.Caching? then
      var d := Session(r.callbackUrl, r.stream, s.now);
      Some(AtR(s.(cache := s.cache[key := d], asked := Noted(s, key, t)), t, Persisting))
    else if l.StoreRow? && at.Persisting? then
      Some(AtR(s.(tables := s.tables.Upsert(key, r.callbackUrl, r.stream, s.now, l.f)), t, Sending))
    else None
  }

  /** A `sessions.send` has come back; `next` is where a message that was not accepted leads. */
  function AfterSend(s: State, t: int, accepted: bool, next: RequestAt): State
    requires t in s.tasks && s.tasks[t].Request?
  {
    if accepted then AtR(s.(sent := s.sent + {t}), t, Answered(SentOk)) else AtR(s, t, next)
  }

  /** The request's calls to the gateway. */
  function GatewayNext(s: State, t: int, l: Label): Option<State>
    requires t in s.tasks && s.tasks[t].Request?
  {
    var at := s.tasks[t].rat;
    if l.SendDone? && at.Sending? then
      Some(AfterSend(s, t, l.res.Accepted?,
        if l.res.SessionNotFound? && s.tasks[t].r.createSession then Creating else Answered(Failed)))
    else if l.CreateDone? && at.Creating? then
      Some(AtR(s, t, if l.ok then Resending else Answered(Failed)))
    else if l.ResendDone? && at.Resending? then
      Some(AfterSend(s, t, l.res.Accepted?, Answered(Failed)))
    else None
  }

  function TaskNext(p: Rules, s: State, t: int, l: Label): Option<State> {
    if t !in s.tasks then None
    else if s.tasks[t].Request? then
      if l.SendDone? || l.CreateDone? || l.ResendDone? then GatewayNext(s, t, l) else RequestNext(p, s, t, l)
    else if l.Look? || l.CheckAge? || l.Load? then LookupNext(p, s, t, l)
    else if l.Fill? || l.EvictCache? || l.EvictRow? then RefreshNext(p, s, t, l)
    else OfferNext(p, s, t, l)
  }

  function Next(p: Rules, s: State, l: Label): Option<State> {
    match l
    case Arrive(t, raw) =>
      if t in s.who || p.read(raw).None? then None
      else Some(s.(tasks := s.tasks[t := Handler(p.read(raw).value, Arrived)],
                   who := s.who[t := FromFrame(raw)]))
    case Submit(t, r) =>
      if t in s.who || p.home(r) == "" then None
      else Some(s.(tasks := s.tasks[t := Request(r, Received)], who := s.who[t := FromRequest(r)]))
    case Tick(d) => Some(s.(now := s.now + d))
    case CleanUp(f) => Some(s.(tables := s.tables.Purge(s.now, f), cleaned := true))
    case Restart => Some(s.(cache := map[], tasks := map[]))
    case _ => TaskNext(p, s, l.t, l)
  }

  /** The state after a run, None if some step was not possible. */
  function Play(p: Rules, s0: State, run: seq<Label>): Option<State> {
    if run == [] then Some(s0)
    else
      match Play(p, s0, run[..|run| - 1])
      case None => None
      case Some(s) => Next(p, s, run[|run| - 1])
  }

  ghost predicate Reachable(p: Rules, s: State) {
    exists enabled, now, run :: Play(p, Init(enabled, now), run) == Some(s)
  }

  // ----- invariant: tasks, tickets and rows -----

  /** The dedupe key a task registers. */
  function KeyOf(p: Rules, o: Origin): string {
    match o
    case FromFrame(raw) => if p.read(raw).Some? then p.outKey(p.read(raw).value) else ""
    case FromRequest(r) => p.inKey(r)
  }

  ghost predicate HandlerOk(s: State, t: int, at: HandlerAt) {
    match PhaseOf(at)
    case Undecided => t !in s.tickets && t !in s.offers && t !in s.refused
    case Cleared => t in s.tickets && t !in s.offers
    case Offered => t in s.tickets
    case Over => true
  }

  ghost predicate RequestOk(p: Rules, s: State, t: int, r: SendRequest, at: RequestAt) {
    && (!at.Received? && !at.Answered? ==> t !in s.refused && p.callbackOk(r.callbackUrl))
    && (at.Received? ==> t !in s.tickets && t !in s.refused)
    && (!at.Received? && !at.Answered? && r.dedupeKey != "" ==> t in s.tickets)
    && (!at.Answered? ==> t !in s.sent)
  }

  ghost predicate TaskOk(p: Rules, s: State, t: int) {
    && t in s.tasks && t in s.who
    && var x := s.tasks[t];
       if x.Handler? then
         && s.who[t].FromFrame? && p.read(s.who[t].raw) == Some(x.m) && HandlerOk(s, t, x.hat)
         && (x.hat.Arrived? || x.hat.HandlerEnded? || p.passes(x.m))
       else s.who[t] == FromRequest(x.r) && p.home(x.r) != "" && RequestOk(p, s, t, x.r, x.rat)
  }

  ghost predicate TicketOk(p: Rules, s: State, t: int) {
    && t in s.tickets && t in s.who
    && var k := s.tickets[t];
       && k.key == KeyOf(p, s.who[t]) && k.at <= s.now
       && (k.clean ==>
             || (k.key in s.tables.dedupe && k.key in s.owners && s.owners[k.key] == t
                 && s.tables.dedupe[k.key].expiresAt == k.at + p.dedupeTTL)
             || (s.cleaned && k.at + p.dedupeTTL < s.now))
  }

  ghost predicate OwnerOk(s: State, k: string) {
    k in s.owners && s.owners[k] in s.tickets && s.tickets[s.owners[k]].key == k
  }

  ghost predicate OfferOk(p: Rules, s: State, t: int) {
    && t in s.who && s.who[t].FromFrame? && t in s.tickets
    && p.read(s.who[t].raw).Some? && p.passes(p.read(s.who[t].raw).value)
  }

  ghost predicate SentOnce(s: State, t: int) {
    t in s.who && s.who[t].FromRequest? && (s.who[t].r.dedupeKey != "" ==> t in s.tickets)
  }

  ghost predicate RefusalOk(p: Rules, s: State, t: int) {
    && t in s.who && t in s.refused && t !in s.tickets && KeyOf(p, s.who[t]) != ""
    && s.refused[t] in s.tickets && s.tickets[s.refused[t]].key == KeyOf(p, s.who[t])
  }

  ghost predicate Books(p: Rules, s: State) {
    && (forall t :: t in s.tasks ==> TaskOk(p, s, t))
    && (forall t :: t in s.tickets ==> TicketOk(p, s, t))
    && (forall k :: k in s.tables.dedupe ==> k in s.owners)
    && (forall k :: k in s.owners ==> OwnerOk(s, k))
    && (forall t :: t in s.offers ==> OfferOk(p, s, t))
    && (forall t :: t in s.sent ==> SentOnce(s, t))
    && (forall t :: t in s.refused ==> RefusalOk(p, s, t))
  }

  // ----- invariant: where settings come from -----

  /** A callback address may be used for a session key only if a request for that key asked for it. */
  ghost predicate Allowed(p: Rules, s: State, key: string, d: Session) {
    p.overrides(d.callbackUrl) ==> (key, d.callbackUrl) in s.asked
  }

  predicate Holds(h: HandlerAt) {
    h.Aging? || h.Filling? || h.Decided? || h.Offering? || h.Posting?
  }

  ghost predicate HolderOk(p: Rules, s: State, t: int) {
    && t in s.tasks
    && match s.tasks[t]
       case Handler(m, at) => Holds(at) ==> Allowed(p, s, p.session(m), at.d)
       case Request(r, at) => at.Persisting? ==> (p.home(r), r.callbackUrl) in s.asked
  }

  ghost predicate OfferedOk(p: Rules, s: State, t: int) {
    && t in s.offers && t in s.who && s.who[t].FromFrame? && p.read(s.who[t].raw).Some?
    && (s.offers[t] == p.webhookUrl
        || (p.overrides(s.offers[t]) && (p.session(p.read(s.who[t].raw).value), s.offers[t]) in s.asked))
  }

  predicate Refusable(s: State, t: int) {
    t in s.tasks && (s.tasks[t].Handler? || s.tasks[t].rat.Received?)
  }

  /** Request q named this callback address for its own, non-empty session key, was let through and stored it. */
  ghost predicate StoredBy(p: Rules, s: State, q: int, key: string, url: string) {
    && q in s.who && s.who[q].FromRequest? && p.home(s.who[q].r) == key != "" && s.who[q].r.callbackUrl == url
    && p.callbackOk(url) && q !in s.refused && (key, url) in s.asked && s.asked[(key, url)] == q
  }

  ghost predicate AskedOk(p: Rules, s: State, a: (string, string)) {
    a in s.asked && StoredBy(p, s, s.asked[a], a.0, a.1) && !Refusable(s, s.asked[a])
  }

  ghost predicate Isolated(p: Rules, s: State) {
    && (forall k :: k in s.cache ==> Allowed(p, s, k, s.cache[k]))
    && (forall k :: k in s.tables.sessions ==> Allowed(p, s, k, s.tables.sessions[k]))
    && (forall t :: t in s.tasks ==> HolderOk(p, s, t))
    && (forall t :: t in s.offers ==> OfferedOk(p, s, t))
    && (forall a :: a in s.asked ==> AskedOk(p, s, a))
  }

  // ----- the books are kept by every step -----

  /** Everything but one task, the delivery settings and the wish list is as before. */
  ghost predicate Moved(s: State, s': State, t: int) {
    && t in s.tasks && t in s'.tasks
    && s'.tasks == s.tasks[t := s'.tasks[t]]
    && s'.tables.dedupe == s.tables.dedupe && s'.tables.enabled == s.tables.enabled
    && s'.now == s.now && s'.who == s.who && s'.tickets == s.tickets && s'.owners == s.owners
    && s'.refused == s.refused && s'.cleaned == s.cleaned
  }

  lemma MoveKeepsBooks(p: Rules, s: State, s': State, t: int)
    requires Books(p, s) && Moved(s, s', t) && TaskOk(p, s', t)
    requires s'.offers == s.offers || (t in s'.offers && s'.offers == s.offers[t := s'.offers[t]] && OfferOk(p, s, t))
    requires s'.sent == s.sent || (s'.sent == s.sent + {t} && SentOnce(s, t))
    ensures Books(p, s')
  {
    forall u | u in s'.tasks ensures TaskOk(p, s', u) { assert u != t ==> TaskOk(p, s, u); }
    forall u | u in s'.tickets ensures TicketOk(p, s', u) { assert TicketOk(p, s, u); }
    forall k | k in s'.owners ensures OwnerOk(s', k) { assert OwnerOk(s, k); }
    forall u | u in s'.offers ensures OfferOk(p, s', u) { assert OfferOk(p, s, u); }
    forall u | u in s'.sent ensures SentOnce(s', u) { assert SentOnce(s, u); }
    forall u | u in s'.refused ensures RefusalOk(p, s', u) { assert RefusalOk(p, s, u); }
  }

  lemma LookupMoves(p: Rules, s: State, t: int, l: Label)
    requires TaskOk(p, s, t) && s.tasks[t].Handler? && LookupNext(p, s, t, l).Some?
    ensures var s' := LookupNext(p, s, t, l).value;
      Moved(s, s', t) && TaskOk(p, s', t) && s'.offers == s.offers && s'.sent == s.sent
  {}

  lemma RefreshMoves(p: Rules, s: State, t: int, l: Label)
    requires TaskOk(p, s, t) && s.tasks[t].Handler? && RefreshNext(p, s, t, l).Some?
    ensures var s' := RefreshNext(p, s, t, l).value;
      Moved(s, s', t) && TaskOk(p, s', t) && s'.offers == s.offers && s'.sent == s.sent
  {}

  lemma OfferMoves(p: Rules, s: State, t: int, l: Label)
    requires TaskOk(p, s, t) && s.tasks[t].Handler? && OfferNext(p, s, t, l).Some?
    requires l.Admit? ==> !s.tasks[t].hat.d.stream && !p.final(s.tasks[t].m)
    ensures var s' := OfferNext(p, s, t, l).value;
      && Moved(s, s', t) && TaskOk(p, s', t) && s'.sent == s.sent
      && (s'.offers == s.offers || (t in s'.offers && s'.offers == s.offers[t := s'.offers[t]] && OfferOk(p, s, t)))
  {}

  lemma RequestMoves(p: Rules, s: State, t: int, l: Label)
    requires TaskOk(p, s, t) && s.tasks[t].Request? && RequestNext(p, s, t, l).Some?
    requires l.AdmitIn? ==> s.tasks[t].r.dedupeKey == ""
    ensures var s' := RequestNext(p, s, t, l).value;
      Moved(s, s', t) && TaskOk(p, s', t) && s'.offers == s.offers && s'.sent == s.sent
  {}

  lemma AfterSendMoves(p: Rules, s: State, t: int, accepted: bool, next: RequestAt)
    requires TaskOk(p, s, t) && s.tasks[t].Request? && !s.tasks[t].rat.Received? && !s.tasks[t].rat.Answered?
    requires !next.Received?
    ensures var s' := AfterSend(s, t, accepted, next);
      && Moved(s, s', t) && TaskOk(p, s', t) && s'.offers == s.offers
      && (s'.sent == s.sent || (s'.sent == s.sent + {t} && SentOnce(s, t)))
  {}

  lemma GatewayMoves(p: Rules, s: State, t: int, l: Label)
    requires TaskOk(p, s, t) && s.tasks[t].Request? && GatewayNext(s, t, l).Some?
    ensures var s' := GatewayNext(s, t, l).value;
      && Moved(s, s', t) && TaskOk(p, s', t) && s'.offers == s.offers
      && (s'.sent == s.sent || (s'.sent == s.sent + {t} && SentOnce(s, t)))
  {
    if !l.CreateDone? {
      AfterSendMoves(p, s, t, l.res.Accepted?,
        if l.SendDone? && l.res.SessionNotFound? && s.tasks[t].r.createSession then Creating else Answered(Failed));
    }
  }

  /** What deduplication does to the books, whatever the store answers. */
  ghost predicate Registered(s: State, s': State, t: int, key: string, ttl: int) {
    && t in s.tasks && t in s'.tasks && s'.tasks == s.tasks[t := s'.tasks[t]]
    && s'.now == s.now && s'.who == s.who && s'.offers == s.offers && s'.sent == s.sent && s'.cleaned == s.cleaned
    && (s'.tables.dedupe == s.tables.dedupe ||
        (key !in s.tables.dedupe && key in s'.tables.dedupe && t in s'.tickets
         && s'.tables.dedupe == s.tables.dedupe[key := s'.tables.dedupe[key]]
         && s'.tables.dedupe[key].expiresAt == s.now + ttl))
    && s'.owners == (if s'.tables.dedupe == s.tables.dedupe then s.owners else s.owners[key := t])
    && if t in s'.tickets then
         && s'.refused == s.refused && s'.tickets == s.tickets[t := s'.tickets[t]]
         && s'.tickets[t].key == key && s'.tickets[t].at == s.now
         && (s'.tickets[t].clean ==> s'.tables.dedupe != s.tables.dedupe)
       else
         && s'.tickets == s.tickets
         && key != "" && key in s.owners && s'.refused == s.refused[t := s.owners[key]]
  }

  lemma RegisterShape(s: State, t: int, kind: string, key: string, ttl: int, f: Fault)
    requires t in s.tasks && t !in s.tickets && (key in s.tables.dedupe ==> key in s.owners)
    ensures var (s1, go) := Register(s, t, kind, key, ttl, f);
      Registered(s, s1, t, key, ttl) && s1.tasks == s.tasks && (go <==> t in s1.tickets) && (!go ==> t in s1.refused)
  {
    var s1 := Register(s, t, kind, key, ttl, f).0;
    if key !in s.tables.dedupe && key in s1.tables.dedupe {
      assert s1.tables.dedupe != s.tables.dedupe;
    }
  }

  /** Deduplication itself: a row has one owner, the owner has the ticket, a refusal names the owner. */
  lemma RegisterKeepsBooks(p: Rules, s: State, s': State, t: int, key: string)
    requires Books(p, s) && TaskOk(p, s, t) && t !in s.tickets && t !in s.refused && t !in s.offers && t !in s.sent
    requires key == KeyOf(p, s.who[t])
    requires Registered(s, s', t, key, p.dedupeTTL) && TaskOk(p, s', t)
    ensures Books(p, s')
  {
    forall u | u in s'.tasks ensures TaskOk(p, s', u) { assert u != t ==> TaskOk(p, s, u); }
    forall u | u in s'.tickets ensures TicketOk(p, s', u) { assert u != t ==> TicketOk(p, s, u); }
    forall k | k in s'.owners ensures OwnerOk(s', k) { assert k in s.owners ==> OwnerOk(s, k); }
    forall u | u in s'.offers ensures OfferOk(p, s', u) { assert OfferOk(p, s, u); }
    forall u | u in s'.sent ensures SentOnce(s', u) { assert SentOnce(s, u); }
    forall u | u in s'.refused ensures RefusalOk(p, s', u) {
      if u != t { assert RefusalOk(p, s, u); } else if t !in s'.tickets { assert OwnerOk(s, key); }
    }
  }

  lemma AdmitKeepsBooks(p: Rules, s: State, t: int, d: Session, f: Fault)
    requires Books(p, s) && t in s.tasks && s.tasks[t].Handler? && s.tasks[t].hat == Decided(d)
    requires d.stream || p.final(s.tasks[t].m)
    ensures Books(p, AdmitHandler(p, s, t, d, f))
  {
    var key := p.outKey(s.tasks[t].m);
    assert TaskOk(p, s, t);
    RegisterShape(s, t, "outbound", key, p.dedupeTTL, f);
    assert t in s.sent ==> SentOnce(s, t);
    RegisterKeepsBooks(p, s, AdmitHandler(p, s, t, d, f), t, key);
  }

  lemma AdmitInKeepsBooks(p: Rules, s: State, t: int, f: Fault)
    requires Books(p, s) && t in s.tasks && s.tasks[t].Request? && s.tasks[t].rat.Received?
    requires s.tasks[t].r.dedupeKey != ""
    ensures Books(p, AdmitRequest(p, s, t, f))
  {
    var key := p.inKey(s.tasks[t].r);
    assert TaskOk(p, s, t);
    RegisterShape(s, t, "inbound", key, p.dedupeTTL, f);
    assert t in s.offers ==> OfferOk(p, s, t);
    RegisterKeepsBooks(p, s, AdmitRequest(p, s, t, f), t, key);
  }

  predicate FromOutside(l: Label) { l.Arrive? || l.Submit? || l.Tick? || l.CleanUp? || l.Restart? }

  lemma OutsideKeepsTasks(p: Rules, s: State, l: Label)
    requires Books(p, s) && FromOutside(l) && Next(p, s, l).Some?
    ensures var s' := Next(p, s, l).value; forall u :: u in s'.tasks ==> TaskOk(p, s', u)
  {
    var s' := Next(p, s, l).value;
    forall u | u in s'.tasks ensures TaskOk(p, s', u) {
      if u in s.tasks {
        assert TaskOk(p, s, u);
      } else {
        assert u in s.tickets ==> TicketOk(p, s, u);
        assert u in s.offers ==> OfferOk(p, s, u);
        assert u in s.sent ==> SentOnce(s, u);
        assert u in s.refused ==> RefusalOk(p, s, u);
      }
    }
  }

  lemma OutsideKeepsTickets(p: Rules, s: State, l: Label)
    requires Books(p, s) && FromOutside(l) && Next(p, s, l).Some?
    ensures var s' := Next(p, s, l).value; forall u :: u in s'.tickets ==> TicketOk(p, s', u)
  {
    var s' := Next(p, s, l).value;
    forall u | u in s'.tickets ensures TicketOk(p, s', u) { assert TicketOk(p, s, u); }
  }

  lemma OutsideShape(p: Rules, s: State, l: Label)
    requires FromOutside(l) && Next(p, s, l).Some?
    ensures var s' := Next(p, s, l).value;
      && s'.owners == s.owners && s'.tickets == s.tickets && s'.offers == s.offers && s'.sent == s.sent
      && s'.refused == s.refused && s'.asked == s.asked
      && (forall u :: u in s.who ==> u in s'.who && s'.who[u] == s.who[u])
      && (forall k :: k in s'.tables.dedupe ==> k in s.tables.dedupe)
  {}

  lemma OutsideKeepsBooks(p: Rules, s: State, l: Label)
    requires Books(p, s) && FromOutside(l) && Next(p, s, l).Some?
    ensures Books(p, Next(p, s, l).value)
  {
    var s' := Next(p, s, l).value;
    OutsideKeepsTasks(p, s, l);
    OutsideKeepsTickets(p, s, l);
    OutsideShape(p, s, l);
    forall k | k in s'.owners ensures OwnerOk(s', k) { assert OwnerOk(s, k); }
    forall u | u in s'.offers ensures OfferOk(p, s', u) { assert OfferOk(p, s, u); }
    forall u | u in s'.sent ensures SentOnce(s', u) { assert SentOnce(s, u); }
    forall u | u in s'.refused ensures RefusalOk(p, s', u) { assert RefusalOk(p, s, u); }
  }

  lemma TaskKeepsBooks(p: Rules, s: State, t: int, l: Label)
    requires Books(p, s) && TaskNext(p, s, t, l).Some?
    ensures Books(p, TaskNext(p, s, t, l).value)
  {
    assert TaskOk(p, s, t);
    var s' := TaskNext(p, s, t, l).value;
    if s.tasks[t].Request? {
      if l.AdmitIn? && s.tasks[t].r.dedupeKey != "" {
        AdmitInKeepsBooks(p, s, t, l.f);
      } else {
        if l.SendDone? || l.CreateDone? || l.ResendDone? {
          GatewayMoves(p, s, t, l);
        } else {
          RequestMoves(p, s, t, l);
        }
        MoveKeepsBooks(p, s, s', t);
      }
    } else if l.Look? || l.CheckAge? || l.Load? {
      LookupMoves(p, s, t, l);
      MoveKeepsBooks(p, s, s', t);
    } else if l.Fill? || l.EvictCache? || l.EvictRow? {
      RefreshMoves(p, s, t, l);
      MoveKeepsBooks(p, s, s', t);
    } else if l.Admit? && (s.tasks[t].hat.d.stream || p.final(s.tasks[t].m)) {
      AdmitKeepsBooks(p, s, t, s.tasks[t].hat.d, l.f);
    } else {
      OfferMoves(p, s, t, l);
      MoveKeepsBooks(p, s, s', t);
    }
  }

  lemma NextKeepsBooks(p: Rules, s: State, l: Label)
    requires Books(p, s) && Next(p, s, l).Some?
    ensures Books(p, Next(p, s, l).value)
  {
    if FromOutside(l) {
      OutsideKeepsBooks(p, s, l);
    } else {
      TaskKeepsBooks(p, s, l.t, l);
    }
  }

  // ----- isolation is kept by every step -----

  ghost predicate Settled(p: Rules, s: State, s': State) {
    && (forall k :: k in s'.cache ==> (k in s.cache && s'.cache[k] == s.cache[k]) || Allowed(p, s', k, s'.cache[k]))
    && (forall k :: k in s'.tables.sessions ==>
          (k in s.tables.sessions && s'.tables.sessions[k] == s.tables.sessions[k]) ||
            Allowed(p, s', k, s'.tables.sessions[k]))
  }

  /** Nobody is refused but task t, and only before it got past deduplication. */
  ghost predicate RefusesOnly(s: State, s': State, t: int) {
    && (Refusable(s', t) ==> Refusable(s, t))
    && forall u :: u in s'.refused ==> u in s.refused || (u == t && Refusable(s, t))
  }

  lemma MoveKeepsIsolated(p: Rules, s: State, s': State, t: int)
    requires Isolated(p, s) && t in s'.tasks && s'.tasks == s.tasks[t := s'.tasks[t]] && s'.who == s.who
    requires HolderOk(p, s', t) && Settled(p, s, s')
    requires s'.offers == s.offers ||
      (t in s'.offers && s'.offers == s.offers[t := s'.offers[t]] && OfferedOk(p, s', t))
    requires RefusesOnly(s, s', t)
    requires s'.asked == s.asked || (exists a :: a !in s.asked && s'.asked == s.asked[a := t] && AskedOk(p, s', a))
    ensures Isolated(p, s')
  {
    forall a | a in s'.asked ensures AskedOk(p, s', a) { assert a in s.asked ==> AskedOk(p, s, a); }
    forall k | k in s'.cache ensures Allowed(p, s', k, s'.cache[k]) {
      if k in s.cache && s'.cache[k] == s.cache[k] { assert Allowed(p, s, k, s.cache[k]); }
    }
    forall k | k in s'.tables.sessions ensures Allowed(p, s', k, s'.tables.sessions[k]) {
      if k in s.tables.sessions && s'.tables.sessions[k] == s.tables.sessions[k] {
        assert Allowed(p, s, k, s.tables.sessions[k]);
      }
    }
    forall u | u in s'.tasks ensures HolderOk(p, s', u) { assert u != t ==> HolderOk(p, s, u); }
    forall u | u in s'.offers ensures OfferedOk(p, s', u) {
      if u in s.offers && (u != t || s'.offers == s.offers) { assert OfferedOk(p, s, u); }
    }
  }

  lemma LookupKeepsIsolated(p: Rules, s: State, t: int, l: Label)
    requires Isolated(p, s) && !p.overrides("") && t in s.tasks && s.tasks[t].Handler? && LookupNext(p, s, t, l).Some?
    ensures Isolated(p, LookupNext(p, s, t, l).value)
  {
    var s' := LookupNext(p, s, t, l).value;
    var key := p.session(s.tasks[t].m);
    assert HolderOk(p, s, t);
    assert key in s.cache ==> Allowed(p, s, key, s.cache[key]);
    assert key in s.tables.sessions ==> Allowed(p, s, key, s.tables.sessions[key]);
    assert HolderOk(p, s', t);
    MoveKeepsIsolated(p, s, s', t);
  }

  lemma RefreshKeepsIsolated(p: Rules, s: State, t: int, l: Label)
    requires Isolated(p, s) && !p.overrides("") && t in s.tasks && s.tasks[t].Handler? && RefreshNext(p, s, t, l).Some?
    ensures Isolated(p, RefreshNext(p, s, t, l).value)
  {
    var s' := RefreshNext(p, s, t, l).value;
    assert HolderOk(p, s, t);
    assert HolderOk(p, s', t);
    assert Settled(p, s, s');
    MoveKeepsIsolated(p, s, s', t);
  }

  lemma RegisterLeavesSettings(s: State, t: int, kind: string, key: string, ttl: int, f: Fault)
    ensures var s1 := Register(s, t, kind, key, ttl, f).0;
      && s1.cache == s.cache && s1.tables.sessions == s.tables.sessions && s1.asked == s.asked
      && s1.offers == s.offers && s1.who == s.who && s1.tasks == s.tasks
      && forall u :: u in s1.refused ==> u in s.refused || u == t
  {}

  /** A handler that moves on with the settings it holds, or drops them, changes nothing here. */
  lemma MovingOnKeepsIsolated(p: Rules, s: State, s1: State, t: int, at: HandlerAt)
    requires Isolated(p, s) && t in s.tasks && s.tasks[t].Handler?
    requires s1.cache == s.cache && s1.tables.sessions == s.tables.sessions && s1.asked == s.asked
    requires s1.offers == s.offers && s1.who == s.who && s1.tasks == s.tasks
    requires forall u :: u in s1.refused ==> u in s.refused || u == t
    requires Holds(at) ==> Holds(s.tasks[t].hat) && at.d == s.tasks[t].hat.d
    ensures Isolated(p, AtH(s1, t, at))
  {
    assert HolderOk(p, s, t);
    MoveKeepsIsolated(p, s, AtH(s1, t, at), t);
  }

  lemma AdmitKeepsIsolated(p: Rules, s: State, t: int, d: Session, f: Fault)
    requires Isolated(p, s) && t in s.tasks && s.tasks[t].Handler? && s.tasks[t].hat == Decided(d)
    ensures Isolated(p, AdmitHandler(p, s, t, d, f))
  {
    var m := s.tasks[t].m;
    RegisterLeavesSettings(s, t, "outbound", p.outKey(m), p.dedupeTTL, f);
    var (s1, go) := Register(s, t, "outbound", p.outKey(m), p.dedupeTTL, f);
    MovingOnKeepsIsolated(p, s, s, t, HandlerEnded);
    MovingOnKeepsIsolated(p, s, s1, t, if go then Offering(d) else HandlerEnded);
  }

  lemma OfferKeepsIsolated(p: Rules, s: State, t: int, l: Label)
    requires Isolated(p, s) && TaskOk(p, s, t) && s.tasks[t].Handler? && OfferNext(p, s, t, l).Some? && !l.Admit?
    ensures Isolated(p, OfferNext(p, s, t, l).value)
  {
    var s' := OfferNext(p, s, t, l).value;
    assert HolderOk(p, s, t);
    assert HolderOk(p, s', t);
    assert Settled(p, s, s');
    if l.Offer? { assert OfferedOk(p, s', t); }
    MoveKeepsIsolated(p, s, s', t);
  }

  lemma AdmitInKeepsIsolated(p: Rules, s: State, t: int, f: Fault)
    requires Isolated(p, s) && t in s.tasks && s.tasks[t].Request? && s.tasks[t].rat.Received?
    ensures Isolated(p, AdmitRequest(p, s, t, f))
  {
    var s' := AdmitRequest(p, s, t, f);
    RegisterLeavesSettings(s, t, "inbound", p.inKey(s.tasks[t].r), p.dedupeTTL, f);
    assert t in s'.tasks && s'.tasks[t].Request? && !s'.tasks[t].rat.Persisting?;
    MoveKeepsIsolated(p, s, s', t);
  }

  lemma RequestKeepsIsolated(p: Rules, s: State, t: int, l: Label)
    requires Isolated(p, s) && TaskOk(p, s, t) && s.tasks[t].Request? && RequestNext(p, s, t, l).Some? && !l.AdmitIn?
    ensures Isolated(p, RequestNext(p, s, t, l).value)
  {
    var s' := RequestNext(p, s, t, l).value;
    var a := (p.home(s.tasks[t].r), s.tasks[t].r.callbackUrl);
    assert HolderOk(p, s, t);
    assert HolderOk(p, s', t);
    assert Settled(p, s, s');
    if l.StoreCache? && a !in s.asked { assert s'.asked == s.asked[a := t] && AskedOk(p, s', a); }
    MoveKeepsIsolated(p, s, s', t);
  }

  lemma AfterSendKeepsIsolated(p: Rules, s: State, t: int, accepted: bool, next: RequestAt)
    requires Isolated(p, s) && t in s.tasks && s.tasks[t].Request? && !s.tasks[t].rat.Received?
    requires !next.Persisting? && !next.Received?
    ensures Isolated(p, AfterSend(s, t, accepted, next))
  {
    var s' := AfterSend(s, t, accepted, next);
    assert HolderOk(p, s', t);
    MoveKeepsIsolated(p, s, s', t);
  }

  lemma GatewayKeepsIsolated(p: Rules, s: State, t: int, l: Label)
    requires Isolated(p, s) && t in s.tasks && s.tasks[t].Request? && GatewayNext(s, t, l).Some?
    ensures Isolated(p, GatewayNext(s, t, l).value)
  {
    if l.CreateDone? {
      AfterSendKeepsIsolated(p, s, t, false, if l.ok then Resending else Answered(Failed));
    } else {
      AfterSendKeepsIsolated(p, s, t, l.res.Accepted?,
        if l.SendDone? && l.res.SessionNotFound? && s.tasks[t].r.createSession then Creating else Answered(Failed));
    }
  }

  lemma OutsideKeepsIsolated(p: Rules, s: State, l: Label)
    requires Isolated(p, s) && FromOutside(l) && Next(p, s, l).Some?
    ensures Isolated(p, Next(p, s, l).value)
  {
    var s' := Next(p, s, l).value;
    forall a | a in s'.asked ensures AskedOk(p, s', a) { assert AskedOk(p, s, a); }
    forall k | k in s'.cache ensures Allowed(p, s', k, s'.cache[k]) { assert Allowed(p, s, k, s.cache[k]); }
    forall k | k in s'.tables.sessions ensures Allowed(p, s', k, s'.tables.sessions[k]) {
      assert Allowed(p, s, k, s.tables.sessions[k]);
    }
    forall u | u in s'.tasks ensures HolderOk(p, s', u) {
      if u in s.tasks && (l.Arrive? || l.Submit? ==> u != l.t) { assert HolderOk(p, s, u); }
    }
    forall u | u in s'.offers ensures OfferedOk(p, s', u) { assert OfferedOk(p, s, u); }
  }

  lemma HandlerKeepsIsolated(p: Rules, s: State, t: int, l: Label)
    requires Isolated(p, s) && TaskOk(p, s, t) && s.tasks[t].Handler? && !p.overrides("") && TaskNext(p, s, t, l).Some?
    ensures Isolated(p, TaskNext(p, s, t, l).value)
  {
    if l.Look? || l.CheckAge? || l.Load? {
      LookupKeepsIsolated(p, s, t, l);
    } else if l.Fill? || l.EvictCache? || l.EvictRow? {
      RefreshKeepsIsolated(p, s, t, l);
    } else if l.Admit? {
      AdmitKeepsIsolated(p, s, t, s.tasks[t].hat.d, l.f);
    } else {
      OfferKeepsIsolated(p, s, t, l);
    }
  }

  lemma NextKeepsIsolated(p: Rules, s: State, l: Label)
    requires Isolated(p, s) && Books(p, s) && !p.overrides("") && Next(p, s, l).Some?
    ensures Isolated(p, Next(p, s, l).value)
  {
    if FromOutside(l) {
      OutsideKeepsIsolated(p, s, l);
    } else {
      var t := l.t;
      assert TaskOk(p, s, t);
      if s.tasks[t].Handler? {
        HandlerKeepsIsolated(p, s, t, l);
      } else if l.SendDone? || l.CreateDone? || l.ResendDone? {
        GatewayKeepsIsolated(p, s, t, l);
      } else if l.AdmitIn? {
        AdmitInKeepsIsolated(p, s, t, l.f);
      } else {
        RequestKeepsIsolated(p, s, t, l);
      }
    }
  }

  // ----- tickets of one key are spaced by the lifetime -----

  ghost predicate Apart(s: State, ttl: int, t: int, u: int) {
    t in s.tickets && u in s.tickets &&
      (s.tickets[t].at + ttl < s.tickets[u].at || s.tickets[u].at + ttl < s.tickets[t].at)
  }

  ghost predicate Rivals(s: State, t: int, u: int) {
    && t in s.tickets && u in s.tickets && t != u
    && s.tickets[t].clean && s.tickets[u].clean && s.tickets[t].key == s.tickets[u].key
  }

  ghost predicate Spaced(p: Rules, s: State) {
    forall t, u :: Rivals(s, t, u) ==> Apart(s, p.dedupeTTL, t, u)
  }

  lemma RegisterKeepsSpaced(p: Rules, s: State, s': State, t: int, key: string)
    requires Books(p, s) && Spaced(p, s) && t !in s.tickets && Registered(s, s', t, key, p.dedupeTTL)
    ensures Spaced(p, s')
  {
    forall v, u | Rivals(s', v, u) ensures Apart(s', p.dedupeTTL, v, u) {
      if v != t && u != t { assert Rivals(s, v, u); }
      else if v == t { assert TicketOk(p, s, u); }
      else { assert TicketOk(p, s, v); }
    }
  }

  lemma SameTicketsStaySpaced(p: Rules, s: State, s': State)
    requires Spaced(p, s) && s'.tickets == s.tickets
    ensures Spaced(p, s')
  {
    forall v, u | Rivals(s', v, u) ensures Apart(s', p.dedupeTTL, v, u) {
      assert Rivals(s, v, u);
    }
  }

  lemma AdmitKeepsSpaced(p: Rules, s: State, t: int, d: Session, f: Fault)
    requires Books(p, s) && Spaced(p, s) && TaskOk(p, s, t) && s.tasks[t].Handler? && s.tasks[t].hat == Decided(d)
    requires d.stream || p.final(s.tasks[t].m)
    ensures Spaced(p, AdmitHandler(p, s, t, d, f))
  {
    var key := p.outKey(s.tasks[t].m);
    RegisterShape(s, t, "outbound", key, p.dedupeTTL, f);
    RegisterKeepsSpaced(p, s, AdmitHandler(p, s, t, d, f), t, key);
  }

  lemma AdmitInKeepsSpaced(p: Rules, s: State, t: int, f: Fault)
    requires Books(p, s) && Spaced(p, s) && TaskOk(p, s, t) && s.tasks[t].Request? && s.tasks[t].rat.Received?
    ensures Spaced(p, AdmitRequest(p, s, t, f))
  {
    var r, s' := s.tasks[t].r, AdmitRequest(p, s, t, f);
    if r.dedupeKey != "" {
      RegisterShape(s, t, "inbound", p.inKey(r), p.dedupeTTL, f);
      RegisterKeepsSpaced(p, s, s', t, p.inKey(r));
    } else {
      SameTicketsStaySpaced(p, s, s');
    }
  }

  lemma OthersKeepTickets(p: Rules, s: State, t: int, l: Label)
    requires TaskOk(p, s, t) && TaskNext(p, s, t, l).Some? && !l.AdmitIn?
    requires l.Admit? ==>
      (s.tasks[t].Handler? && s.tasks[t].hat.Decided? && !s.tasks[t].hat.d.stream && !p.final(s.tasks[t].m))
    ensures var s' := TaskNext(p, s, t, l).value;
      s'.tickets == s.tickets && s'.tables.enabled == s.tables.enabled && s'.cleaned == s.cleaned
  {
    if s.tasks[t].Request? {
      if l.SendDone? || l.CreateDone? || l.ResendDone? { GatewayMoves(p, s, t, l); } else { RequestMoves(p, s, t, l); }
    } else if l.Look? || l.CheckAge? || l.Load? {
      LookupMoves(p, s, t, l);
    } else if l.Fill? || l.EvictCache? || l.EvictRow? {
      RefreshMoves(p, s, t, l);
    } else {
      OfferMoves(p, s, t, l);
    }
  }

  lemma TaskKeepsSpaced(p: Rules, s: State, t: int, l: Label)
    requires Books(p, s) && Spaced(p, s) && TaskNext(p, s, t, l).Some?
    ensures Spaced(p, TaskNext(p, s, t, l).value)
  {
    assert TaskOk(p, s, t);
    if l.Admit? && s.tasks[t].Handler? && (s.tasks[t].hat.d.stream || p.final(s.tasks[t].m)) {
      AdmitKeepsSpaced(p, s, t, s.tasks[t].hat.d, l.f);
    } else if l.AdmitIn? {
      AdmitInKeepsSpaced(p, s, t, l.f);
    } else {
      OthersKeepTickets(p, s, t, l);
      SameTicketsStaySpaced(p, s, TaskNext(p, s, t, l).value);
    }
  }

  lemma NextKeepsSpaced(p: Rules, s: State, l: Label)
    requires Books(p, s) && Spaced(p, s) && Next(p, s, l).Some?
    ensures Spaced(p, Next(p, s, l).value)
  {
    if FromOutside(l) { SameTicketsStaySpaced(p, s, Next(p, s, l).value); } else { TaskKeepsSpaced(p, s, l.t, l); }
  }

  // ----- whole runs -----

  lemma {:induction false} RunKeeps(p: Rules, s0: State, run: seq<Label>)
    requires Books(p, s0) && Isolated(p, s0) && Spaced(p, s0) && !p.overrides("") && Play(p, s0, run).Some?
    ensures var s := Play(p, s0, run).value; Books(p, s) && Isolated(p, s) && Spaced(p, s)
    decreases |run|
  {
    if run != [] {
      var before := run[..|run| - 1];
      RunKeeps(p, s0, before);
      var s := Play(p, s0, before).value;
      NextKeepsBooks(p, s, run[|run| - 1]);
      NextKeepsIsolated(p, s, run[|run| - 1]);
      NextKeepsSpaced(p, s, run[|run| - 1]);
    }
  }

  lemma ReachableKeeps(p: Rules, s: State)
    requires Reachable(p, s) && !p.overrides("")
    ensures Books(p, s) && Isolated(p, s) && Spaced(p, s)
  {
    var enabled, now, run :| Play(p, Init(enabled, now), run) == Some(s);
    RunKeeps(p, Init(enabled, now), run);
  }

  /** At most one offer per frame: in every run, two handlers of byte-identical frames that both
      offered their event to a webhook, each after its own successful insert, got their tickets more
      than the dedupe lifetime apart with a cleanup in the run. A run without cleanups offers each
      frame at most once, whatever the interleaving and however often the process restarts. */
  lemma FrameOfferedOnce(cfg: Config, decode: string -> Option<Frame>, s: State, t: int, u: int)
    requires Reachable(Bridge(cfg, decode), s) && t in s.offers && u in s.offers && t != u
    requires t in s.who && u in s.who && s.who[t] == s.who[u]
    requires t in s.tickets && u in s.tickets && s.tickets[t].clean && s.tickets[u].clean
    ensures s.cleaned && Apart(s, cfg.dedupeTTL, t, u)
  {
    var p := Bridge(cfg, decode);
    ReachableKeeps(p, s);
    assert TicketOk(p, s, t) && TicketOk(p, s, u);
  }

  /** At most one accepted send per inbound key, in the same sense. */
  lemma KeySentOnce(cfg: Config, decode: string -> Option<Frame>, s: State, t: int, u: int)
    requires Reachable(Bridge(cfg, decode), s) && t in s.sent && u in s.sent && t != u
    requires t in s.who && u in s.who && s.who[t].FromRequest? && s.who[u].FromRequest?
    requires SessionKeys.InboundKey(s.who[t].r.sessionKey, s.who[t].r.dedupeKey)
          == SessionKeys.InboundKey(s.who[u].r.sessionKey, s.who[u].r.dedupeKey)
    requires s.who[t].r.dedupeKey != "" && s.who[u].r.dedupeKey != ""
    ensures t in s.tickets && u in s.tickets
    ensures s.tickets[t].clean && s.tickets[u].clean ==> s.cleaned && Apart(s, cfg.dedupeTTL, t, u)
  {
    var p := Bridge(cfg, decode);
    ReachableKeeps(p, s);
    assert SentOnce(s, t) && SentOnce(s, u);
    assert TicketOk(p, s, t) && TicketOk(p, s, u);
  }

  lemma KeysApart(cfg: Config, decode: string -> Option<Frame>, raw: string, r: SendRequest)
    ensures KeyOf(Bridge(cfg, decode), FromFrame(raw)) != KeyOf(Bridge(cfg, decode), FromRequest(r))
  {
    if decode(raw).Some? {
      var m := MessageOf(raw, decode(raw).value);
      SessionKeys.PrefixesApart(r.sessionKey, r.dedupeKey,
        cfg.hash(Material(m.eventType, m.sessionKey, m.requestID, m.raw)));
    }
  }

  /** No event is dropped for another's sake: a frame refused as a duplicate met a row that a handler
      of the very same bytes had inserted. Inbound keys share the table and never interfere. */
  lemma RefusedFrameWasSeen(cfg: Config, decode: string -> Option<Frame>, s: State, t: int)
    requires Injective(cfg.hash) && DecodesJson(decode) && Reachable(Bridge(cfg, decode), s)
    requires t in s.refused && t in s.who && s.who[t].FromFrame?
    ensures s.refused[t] in s.who && s.refused[t] != t && s.who[s.refused[t]] == s.who[t]
  {
    var p := Bridge(cfg, decode);
    ReachableKeeps(p, s);
    assert RefusalOk(p, s, t);
    var o := s.refused[t];
    assert TicketOk(p, s, o);
    var raw := s.who[t].raw;
    match s.who[o]
    case FromFrame(raw') => OutboundKeyIdentifiesFrame(cfg.hash, decode, raw, raw');
    case FromRequest(r) =>
      KeysApart(cfg, decode, raw, r);
      assert false;
  }

  /** A request answered as a duplicate met a row inserted by an earlier request; with colon-free
      dedupe keys that request had the same session and the same dedupe key. */
  lemma RefusedRequestWasSeen(cfg: Config, decode: string -> Option<Frame>, s: State, t: int)
    requires Reachable(Bridge(cfg, decode), s) && t in s.refused && t in s.who && s.who[t].FromRequest?
    ensures var o := s.refused[t];
      && o in s.who && o != t && s.who[o].FromRequest?
      && (':' !in s.who[o].r.dedupeKey && ':' !in s.who[t].r.dedupeKey ==>
            s.who[o].r.sessionKey == s.who[t].r.sessionKey && s.who[o].r.dedupeKey == s.who[t].r.dedupeKey)
  {
    var p := Bridge(cfg, decode);
    ReachableKeeps(p, s);
    assert RefusalOk(p, s, t);
    var o := s.refused[t];
    assert TicketOk(p, s, o);
    var r := s.who[t].r;
    match s.who[o]
    case FromRequest(r') => SessionKeys.InboundKeyInjective(r'.sessionKey, r'.dedupeKey, r.sessionKey, r.dedupeKey);
    case FromFrame(raw') =>
      KeysApart(cfg, decode, raw', r);
      assert false;
  }

  /** In every run, of whatever rules, an offered address is the default or one that a request stored
      under the same key. */
  lemma OfferComesFromRequest(p: Rules, s: State, t: int) returns (q: int)
    requires Reachable(p, s) && !p.overrides("") && t in s.offers
    ensures t in s.who && s.who[t].FromFrame? && p.read(s.who[t].raw).Some? && p.passes(p.read(s.who[t].raw).value)
    ensures s.offers[t] == p.webhookUrl || StoredBy(p, s, q, p.session(p.read(s.who[t].raw).value), s.offers[t])
  {
    ReachableKeeps(p, s);
    assert OfferOk(p, s, t) && OfferedOk(p, s, t);
    var a := (p.session(p.read(s.who[t].raw).value), s.offers[t]);
    q := if a in s.asked then s.asked[a] else t;
    assert a in s.asked ==> AskedOk(p, s, a);
  }

  /** StoredBy in the bridge's own words. */
  ghost predicate Stored(s: State, q: int, key: string, url: string) {
    && q in s.who && s.who[q].FromRequest? && q !in s.refused
    && TrimSpace(s.who[q].r.sessionKey) == key != "" && s.who[q].r.callbackUrl == url
    && (key, url) in s.asked && s.asked[(key, url)] == q
  }

  /** Session isolation: in every run an event is offered only to the default webhook or to an acceptable
      address that a request, one that was not refused, stored for exactly this event's trimmed session
      key; an event without a session key only ever goes to the default. And only forwarded events are
      offered at all. */
  lemma SessionIsolation(cfg: Config, decode: string -> Option<Frame>, s: State, t: int)
    requires Reachable(Bridge(cfg, decode), s) && t in s.offers
    ensures t in s.who && s.who[t].FromFrame? && decode(s.who[t].raw).Some?
    ensures var m := MessageOf(s.who[t].raw, decode(s.who[t].raw).value);
      && m.kind == "event" && Passes(cfg, m)
      && (s.offers[t] == cfg.webhookUrl ||
          (SessionKeys.CallbackOk(s.offers[t]) && exists q :: Stored(s, q, TrimSpace(m.sessionKey), s.offers[t])))
  {
    var q := OfferComesFromRequest(Bridge(cfg, decode), s, t);
    var m := MessageOf(s.who[t].raw, decode(s.who[t].raw).value);
    if s.offers[t] != cfg.webhookUrl { assert Stored(s, q, TrimSpace(m.sessionKey), s.offers[t]); }
  }
}
