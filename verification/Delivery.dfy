/** Where a session's events go (internal/app/app.go): an in-memory cache in front of the
    session table, checked against a lifetime, and the message handler that uses it. */
module Delivery {
  import opened GoText
  import opened Frames
  import opened Storage
  import opened Fingerprint

  /** SessionDeliveryOptions{Stream: true}: no override. */
  const NO_OVERRIDE := Session("", true, 0)

  datatype Config = Config(
    sessionMessages: bool, sessionTools: bool, sessionChanges: bool, ticks: bool, healths: bool,
    webhookUrl: string,
    deliveryTTL: int,
    dedupeTTL: int,
    hash: string -> string)        // hex text of SHA-256
  {
    /** Which event types are sent on: six are known, each under a switch. */
    predicate Forwards(eventType: string) {
      match eventType
      case "session.message" => sessionMessages
      case "agent" => sessionMessages
      case "session.tool" => sessionTools
      case "sessions.changed" => sessionChanges
      case "tick" => ticks
      case "health" => healths
      case _ => false
    }

    lemma ForwardedIsTyped(eventType: string)
      requires Forwards(eventType)
      ensures NotBlank(eventType)
    {
      assert !IsSpace(eventType[0]);
    }
  }

  /** Cache and tables together. */
  datatype Memory = Memory(cache: map<string, Session>, tables: Tables) {

    function Put(sessionKey: string, url: string, stream: bool, at: int, now: int, f: Fault): Memory {
      var key := TrimSpace(sessionKey);
      if key == "" then this
      else Memory(cache[key := Session(url, stream, at)], tables.Upsert(key, url, stream, now, f))
    }

    function Answer(sessionKey: string, now: int, ttl: int, look: Fault): Session {
      var key := TrimSpace(sessionKey);
      if key in cache then (if now - cache[key].at > ttl then NO_OVERRIDE else cache[key])
      else
        match tables.Lookup(key, look)
        case Some(Some(row)) => row
        case _ => NO_OVERRIDE
    }

    function AfterGet(sessionKey: string, now: int, ttl: int, look: Fault, del: Fault): Memory {
      var key := TrimSpace(sessionKey);
      if key in cache then
        if now - cache[key].at > ttl then Memory(cache - {key}, tables.Delete(key, del)) else this
      else
        match tables.Lookup(key, look)
        case Some(Some(row)) => this.(cache := cache[key := row])
        case _ => this
    }

    function Clear(sessionKey: string, del: Fault): Memory {
      var key := TrimSpace(sessionKey);
      if key == "" then this else Memory(cache - {key}, tables.Delete(key, del))
    }
  }

  /** The first tests of the handler: is this an event that is forwarded at all? */
  predicate Passes(cfg: Config, m: Message) {
    m.kind == "event" && cfg.Forwards(m.eventType) && !(RequiresSessionKey(m.eventType) && !NotBlank(m.sessionKey))
  }

  function Target(cfg: Config, d: Session): string {
    if NotBlank(d.callbackUrl) then d.callbackUrl else cfg.webhookUrl
  }

  datatype Outcome = Skipped | NotFinal | Duplicate | SendFailed(url: string) | Delivered(url: string)

  /** What the environment does to one run of the handler. */
  datatype Env = Env(now: int, look: Fault, expire: Fault, register: Fault, posted: bool, clear: Fault)

  /** One uninterrupted run of the handler. */
  function Handled(cfg: Config, mem: Memory, m: Message, env: Env): (Memory, Outcome) {
    if !Passes(cfg, m) then (mem, Skipped)
    else
      var d := mem.Answer(m.sessionKey, env.now, cfg.deliveryTTL, env.look);
      var got := mem.AfterGet(m.sessionKey, env.now, cfg.deliveryTTL, env.look, env.expire);
      if !d.stream && !IsFinalEvent(m) then (got, NotFinal)
      else
        var key := OutboundKey(cfg.hash, m);
        var noted := got.(tables := got.tables.Insert("outbound", key, cfg.dedupeTTL, env.now, env.register));
        if got.tables.IsNew(key, env.register) == Some(false) then (noted, Duplicate)
        else if !env.posted then (noted, SendFailed(Target(cfg, d)))
        else (if d.stream then noted else noted.Clear(m.sessionKey, env.clear), Delivered(Target(cfg, d)))
  }

  class App {
    const cfg: Config
    const store: Store
    var delivery: map<string, Session>

    function Model(): Memory
      reads this, store
    {
      Memory(delivery, store.Model())
    }

    constructor (cfg: Config, store: Store)
      ensures this.cfg == cfg && this.store == store
      ensures Model() == Memory(map[], store.Model())
    {
      this.cfg, this.store := cfg, store;
      delivery := map[];
    }

    /** A creation time of None is Go's zero time: now is used instead. */
    method SetSessionDelivery(sessionKey: string, url: string, stream: bool, createdAt: Option<int>, now: int, f: Fault)
      modifies this`delivery, store`sessions
      ensures Model() ==
        old(Model()).Put(sessionKey, url, stream, if createdAt.Some? then createdAt.value else now, now, f)
    {
      var key := TrimSpace(sessionKey);
      if key == "" { return; }
      var at := if createdAt.Some? then createdAt.value else now;
      delivery := delivery[key := Session(url, stream, at)];
      var _ := store.UpsertSessionDelivery(key, url, stream, now, f);
    }

    method GetSessionDelivery(sessionKey: string, now: int, look: Fault, del: Fault) returns (d: Session)
      modifies this`delivery, store`sessions
      ensures d == old(Model()).Answer(sessionKey, now, cfg.deliveryTTL, look)
      ensures Model() == old(Model()).AfterGet(sessionKey, now, cfg.deliveryTTL, look, del)
    {
      var key := TrimSpace(sessionKey);
      if key !in delivery {
        var found := store.GetSessionDelivery(key, look);
        if found.None? || found.value.None? { return NO_OVERRIDE; }
        d := found.value.value;
        delivery := delivery[key := d];
        return;
      }
      d := delivery[key];
      if now - d.at > cfg.deliveryTTL {
        delivery := delivery - {key};
        var _ := store.DeleteSessionDelivery(key, del);
        d := NO_OVERRIDE;
      }
    }

    method ClearSessionDelivery(sessionKey: string, del: Fault)
      modifies this`delivery, store`sessions
      ensures Model() == old(Model()).Clear(sessionKey, del)
    {
      var key := TrimSpace(sessionKey);
      if key == "" { return; }
      delivery := delivery - {key};
      var _ := store.DeleteSessionDelivery(key, del);
    }

    method HandleMessage(m: Message, env: Env) returns (out: Outcome)
      modifies this`delivery, store`sessions, store`dedupe
      ensures (Model(), out) == Handled(cfg, old(Model()), m, env)
    {
      if m.kind != "event" { return Skipped; }
      if !cfg.Forwards(m.eventType) { return Skipped; }
      NotBlankIsTrim(m.sessionKey);
      if RequiresSessionKey(m.eventType) && TrimSpace(m.sessionKey) == "" { return Skipped; }
      var d := GetSessionDelivery(m.sessionKey, env.now, env.look, env.expire);
      if !d.stream && !IsFinalEvent(m) { return NotFinal; }
      var key := OutboundKey(cfg.hash, m);
      if key != "" {
        var isNew := store.RegisterDedupeKey("outbound", key, cfg.dedupeTTL, env.now, env.register);
        if isNew == Some(false) { return Duplicate; }
      }
      NotBlankIsTrim(d.callbackUrl);
      var url := if TrimSpace(d.callbackUrl) != "" then d.callbackUrl else cfg.webhookUrl;
      if !env.posted { return SendFailed(url); }
      if !d.stream { ClearSessionDelivery(m.sessionKey, env.clear); }
      out := Delivered(url);
    }
  }

  predicate AllHealthy(env: Env) {
    env.look == env.expire == env.register == env.clear == Healthy
  }

  /** Six kinds of event are sent on, each under its switch, and the three that belong to a session only
      when they name one. */
  predicate Wanted(cfg: Config, m: Message) {
    && m.kind == "event"
    && (|| (m.eventType in {"session.message", "agent"} && cfg.sessionMessages && NotBlank(m.sessionKey))
        || (m.eventType == "session.tool" && cfg.sessionTools && NotBlank(m.sessionKey))
        || (m.eventType == "sessions.changed" && cfg.sessionChanges)
        || (m.eventType == "tick" && cfg.ticks)
        || (m.eventType == "health" && cfg.healths))
  }

  lemma PassesIff(cfg: Config, m: Message)
    ensures Passes(cfg, m) <==> Wanted(cfg, m)
  {
    hide NotBlank;
    NamesStand("session.message");
    NamesStand("agent");
    NamesStand("session.tool");
    NamesStand("sessions.changed");
    NamesStand("tick");
    NamesStand("health");
  }

  lemma NamesStand(name: string)
    requires name in {"session.message", "agent", "session.tool", "sessions.changed", "tick", "health"}
    ensures RequiresSessionKey(name) <==> name in {"session.message", "agent", "session.tool"}
  {
    NameIsLower(name);
    hide ToLower;
    assert !IsSpace(name[0]) && !IsSpace(name[|name| - 1]);
    TrimFixed(name, IsSpace);
  }

  lemma NameIsLower(name: string)
    requires name in {"session.message", "agent", "session.tool", "sessions.changed", "tick", "health"}
    ensures ToLower(name) == name
  {
    if name == "session.message" { assert ToLower("session.message") == "session.message"; }
    else if name == "session.tool" { assert ToLower("session.tool") == "session.tool"; }
    else if name == "sessions.changed" { assert ToLower("sessions.changed") == "sessions.changed"; }
  }

  /** The address an event goes to under settings d: their callback exactly when it is not blank. */
  predicate GoesTo(cfg: Config, d: Session, url: string) {
    (NotBlank(d.callbackUrl) ==> url == d.callbackUrl) && (!NotBlank(d.callbackUrl) ==> url == cfg.webhookUrl)
  }

  /** A message is offered exactly when it is wanted, its frame shows the end or its session streams, and a
      working store has not seen it; it is offered to its session's callback, or to the default if that is
      blank, and delivered exactly when the webhook takes it. A message that is not offered leaves the other
      sessions' settings and all dedupe keys as they were. */
  lemma OfferedIff(cfg: Config, mem: Memory, m: Message, env: Env)
    ensures var (after, out) := Handled(cfg, mem, m, env);
      var d := mem.Answer(m.sessionKey, env.now, cfg.deliveryTTL, env.look);
      && (out.Delivered? || out.SendFailed? <==>
            && Wanted(cfg, m) && (ShowsEnd(m.frame) || d.stream)
            && !(mem.tables.enabled && env.register.Healthy? && OutboundKey(cfg.hash, m) in mem.tables.dedupe))
      && (out.Delivered? || out.SendFailed? ==> GoesTo(cfg, d, out.url) && (out.Delivered? <==> env.posted))
      && (!out.Delivered? && !out.SendFailed? ==>
            && after.tables.dedupe == mem.tables.dedupe
            && forall k :: k != TrimSpace(m.sessionKey) ==>
                 && (k in after.tables.sessions <==> k in mem.tables.sessions)
                 && (k in mem.tables.sessions ==> after.tables.sessions[k] == mem.tables.sessions[k]))
  {
    hide IsFinalEvent, ShowsEnd, OutboundKey, Passes, Wanted, TrimSpace, Memory.Answer, Memory.Clear;
    DuplicateIff(cfg, mem, m, env);
    PassesIff(cfg, m);
    FinalIff(m);
  }

  /** The session's setting is dropped only after an event that was delivered with stream off; whatever else
      happens to the message, cache and table are as the lookup left them. */
  lemma OnlyDeliveryClears(cfg: Config, mem: Memory, m: Message, env: Env)
    ensures var (after, out) := Handled(cfg, mem, m, env);
      var d := mem.Answer(m.sessionKey, env.now, cfg.deliveryTTL, env.look);
      var got := mem.AfterGet(m.sessionKey, env.now, cfg.deliveryTTL, env.look, env.expire);
      if out.Skipped? then after == mem
      else if out.Delivered? && !d.stream then
        after.cache == got.cache - {TrimSpace(m.sessionKey)} || TrimSpace(m.sessionKey) == ""
      else after.cache == got.cache && after.tables.sessions == got.tables.sessions
  {
    hide IsFinalEvent, OutboundKey, Passes, TrimSpace, Memory.Answer, Memory.AfterGet, Tables.IsNew;
  }

  /** The override is used up: after a final event went out with stream off, the session is back on
      the default webhook, with streaming, at any time and after any restart. */
  lemma FinalEventUsesUpOverride(cfg: Config, mem: Memory, m: Message, env: Env, later: int)
    requires mem.tables.enabled && AllHealthy(env) && NotBlank(m.sessionKey)
    requires Handled(cfg, mem, m, env).1.Delivered?
    requires !mem.Answer(m.sessionKey, env.now, cfg.deliveryTTL, Healthy).stream
    ensures var after := Handled(cfg, mem, m, env).0;
      && after.Answer(m.sessionKey, later, cfg.deliveryTTL, Healthy) == NO_OVERRIDE
      && after.(cache := map[]).Answer(m.sessionKey, later, cfg.deliveryTTL, Healthy) == NO_OVERRIDE
  {
    NotBlankIsTrim(m.sessionKey);
  }

  /** A message is refused as a duplicate exactly when it would otherwise be offered, its key is in the
      table and the store works: a disabled or failing store lets every repetition through. */
  lemma DuplicateIff(cfg: Config, mem: Memory, m: Message, env: Env)
    ensures Handled(cfg, mem, m, env).1.Duplicate? <==>
      && Passes(cfg, m)
      && (IsFinalEvent(m) || mem.Answer(m.sessionKey, env.now, cfg.deliveryTTL, env.look).stream)
      && mem.tables.enabled && env.register.Healthy? && OutboundKey(cfg.hash, m) in mem.tables.dedupe
  {
    hide IsFinalEvent, OutboundKey, TrimSpace, Memory.Answer, Memory.Clear, FirstNonEmpty, RequiresSessionKey;
    if Passes(cfg, m) {
      cfg.ForwardedIsTyped(m.eventType);
      TypedEventsHaveKeys(cfg.hash, m);
    }
  }

  lemma OfferRecordsKey(cfg: Config, mem: Memory, m: Message, env: Env)
    requires mem.tables.enabled && AllHealthy(env)
    requires !Handled(cfg, mem, m, env).1.Skipped? && !Handled(cfg, mem, m, env).1.NotFinal?
    ensures var after := Handled(cfg, mem, m, env).0;
      after.tables.enabled && OutboundKey(cfg.hash, m) in after.tables.dedupe
  {
    if Passes(cfg, m) {
      cfg.ForwardedIsTyped(m.eventType);
      TypedEventsHaveKeys(cfg.hash, m);
    }
  }

  lemma RecordedKeyIsNeverOffered(cfg: Config, mem: Memory, m: Message, env: Env)
    requires mem.tables.enabled && AllHealthy(env)
    requires OutboundKey(cfg.hash, m) in mem.tables.dedupe
    ensures var out := Handled(cfg, mem, m, env).1; out.Duplicate? || out.NotFinal? || out.Skipped?
  {
    if Passes(cfg, m) {
      cfg.ForwardedIsTyped(m.eventType);
      TypedEventsHaveKeys(cfg.hash, m);
    }
  }

  /** At most one attempt per message: once a message has been offered to the webhook, or refused as
      a duplicate, every later run of it is refused, even if the offer failed. */
  lemma OfferedOnce(cfg: Config, mem: Memory, m: Message, env: Env, env': Env)
    requires mem.tables.enabled && AllHealthy(env) && AllHealthy(env')
    requires !Handled(cfg, mem, m, env).1.Skipped? && !Handled(cfg, mem, m, env).1.NotFinal?
    ensures var again := Handled(cfg, Handled(cfg, mem, m, env).0, m, env').1;
      !again.SendFailed? && !again.Delivered?
  {
    OfferRecordsKey(cfg, mem, m, env);
    RecordedKeyIsNeverOffered(cfg, Handled(cfg, mem, m, env).0, m, env');
  }
}
