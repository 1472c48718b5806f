/** Whole runs of set, get, clear and restart, one at a time, on a healthy store that starts empty:
    the cache and the table together behave like one map with a lifetime (internal/app/app.go). */
module DeliveryRuns {
  import opened GoText
  import opened Storage
  import opened Frames
  import opened Fingerprint
  import opened Delivery

  datatype Op =
    | Set(key: string, url: string, stream: bool, now: int)
    | Get(key: string, now: int)
    | Clear(key: string, now: int)
    | Restart(now: int)

  const START := Memory(map[], EMPTY)

  function Exec(mem: Memory, op: Op, ttl: int): Memory {
    match op
    case Set(k, url, stream, now) => mem.Put(k, url, stream, now, now, Healthy)
    case Get(k, now) => mem.AfterGet(k, now, ttl, Healthy, Healthy)
    case Clear(k, now) => mem.Clear(k, Healthy)
    case Restart(now) => mem.(cache := map[])
  }

  function After(ops: seq<Op>, ttl: int): (mem: Memory)
    ensures mem.tables.enabled
  {
    if ops == [] then START else Exec(After(ops[..|ops| - 1], ttl), ops[|ops| - 1], ttl)
  }

  // ----- the simple form: what the history says about a key, with no cache and no table -----

  /** The setting the last set of this (trimmed) key made, unless it was cleared since. */
  function LastSet(ops: seq<Op>, key: string): Option<Session> {
    if ops == [] || key == "" then None
    else
      var op := ops[|ops| - 1];
      if op.Set? && TrimSpace(op.key) == key then Some(Session(op.url, op.stream, op.now))
      else if op.Clear? && TrimSpace(op.key) == key then None
      else LastSet(ops[..|ops| - 1], key)
  }

  /** A lifetime map: the last setting while its age is at most the lifetime, the default after. */
  function Expected(ops: seq<Op>, sessionKey: string, now: int, ttl: int): Session {
    match LastSet(ops, TrimSpace(sessionKey))
    case Some(s) => if now - s.at <= ttl then s else NO_OVERRIDE
    case None => NO_OVERRIDE
  }

  ghost predicate ClockRuns(ops: seq<Op>, now: int) {
    && (forall i, j :: 0 <= i < j < |ops| ==> ops[i].now <= ops[j].now)
    && (forall i :: 0 <= i < |ops| ==> ops[i].now <= now)
  }

  // ----- what every run keeps -----

  /** A row is the last setting; a key without a row was never set, was cleared, or is too old. */
  ghost predicate RowsTrue(mem: Memory, ops: seq<Op>, now: int, ttl: int) {
    && mem.tables.enabled
    && (forall k :: k in mem.tables.sessions ==> LastSet(ops, k) == Some(mem.tables.sessions[k]))
    && (forall k :: k !in mem.tables.sessions && LastSet(ops, k).Some? ==> now - LastSet(ops, k).value.at > ttl)
  }

  /** The cache never says anything the table does not say. */
  ghost predicate CacheIncluded(mem: Memory) {
    forall k :: k in mem.cache ==> k in mem.tables.sessions && mem.cache[k] == mem.tables.sessions[k]
  }

  lemma {:induction false} RunInvariant(ops: seq<Op>, now: int, ttl: int)
    requires ClockRuns(ops, now)
    ensures RowsTrue(After(ops, ttl), ops, now, ttl) && CacheIncluded(After(ops, ttl))
    decreases |ops|
  {
    if ops != [] {
      var n := |ops| - 1;
      var before, op := ops[..n], ops[n];
      assert ClockRuns(before, op.now);
      RunInvariant(before, op.now, ttl);
      var mem, mem' := After(before, ttl), After(ops, ttl);
      assert mem' == Exec(mem, op, ttl);
      forall k ensures k in mem'.tables.sessions ==> LastSet(ops, k) == Some(mem'.tables.sessions[k])
        ensures k !in mem'.tables.sessions && LastSet(ops, k).Some? ==> now - LastSet(ops, k).value.at > ttl
      {
        assert LastSet(before, "") == None;
      }
    }
  }

  /** Without restarts the cache and the table are the same map. */
  lemma {:induction false} CacheEqualsTable(ops: seq<Op>, ttl: int)
    requires forall i :: 0 <= i < |ops| ==> !ops[i].Restart?
    ensures After(ops, ttl).cache == After(ops, ttl).tables.sessions && After(ops, ttl).tables.enabled
    decreases |ops|
  {
    if ops != [] {
      CacheEqualsTable(ops[..|ops| - 1], ttl);
    }
  }

  /** The only wrong answer there is: a row older than the lifetime, read from the table because the
      cache was lost, is returned once as it stands. */
  predicate AnswersStale(mem: Memory, sessionKey: string, now: int, ttl: int) {
    var k := TrimSpace(sessionKey);
    k !in mem.cache && k in mem.tables.sessions && now - mem.tables.sessions[k].at > ttl
  }

  /** Every answer in every run: the lifetime map's answer, except when the row is read stale, and
      then the last setting although it has expired. */
  lemma AnswerIsExpected(ops: seq<Op>, sessionKey: string, now: int, ttl: int)
    requires ClockRuns(ops, now)
    ensures var mem := After(ops, ttl);
      if AnswersStale(mem, sessionKey, now, ttl)
      then LastSet(ops, TrimSpace(sessionKey)) == Some(mem.Answer(sessionKey, now, ttl, Healthy))
      else mem.Answer(sessionKey, now, ttl, Healthy) == Expected(ops, sessionKey, now, ttl)
  {
    RunInvariant(ops, now, ttl);
  }

  /** With no restart the two maps refine the lifetime map: a lookup returns the last set value
      exactly while its age is at most the lifetime, and the default otherwise. */
  lemma CacheRefinesLifetimeMap(ops: seq<Op>, sessionKey: string, now: int, ttl: int)
    requires ClockRuns(ops, now) && forall i :: 0 <= i < |ops| ==> !ops[i].Restart?
    ensures After(ops, ttl).Answer(sessionKey, now, ttl, Healthy) == Expected(ops, sessionKey, now, ttl)
  {
    CacheEqualsTable(ops, ttl);
    AnswerIsExpected(ops, sessionKey, now, ttl);
  }

  /** What the history says an event of a session is handled under: the lifetime map's setting or, when the
      row is read stale, the last setting. */
  function Governing(cfg: Config, ops: seq<Op>, sessionKey: string, now: int): Session {
    if AnswersStale(After(ops, cfg.deliveryTTL), sessionKey, now, cfg.deliveryTTL)
       && LastSet(ops, TrimSpace(sessionKey)).Some?
    then LastSet(ops, TrimSpace(sessionKey)).value
    else Expected(ops, sessionKey, now, cfg.deliveryTTL)
  }

  /** After any run, an event that gets to a webhook goes to the callback address that was last set for its
      session and has neither expired nor been cleared, and to the default webhook when there is none or it
      is blank; an event that does not show the end gets to one only if that setting streams. */
  lemma OfferFollowsHistory(cfg: Config, ops: seq<Op>, m: Message, env: Delivery.Env)
    requires ClockRuns(ops, env.now) && AllHealthy(env)
    ensures var out := Handled(cfg, After(ops, cfg.deliveryTTL), m, env).1;
      var d := Governing(cfg, ops, m.sessionKey, env.now);
      && (out.Delivered? || out.SendFailed? ==>
            && (NotBlank(d.callbackUrl) ==> out.url == d.callbackUrl)
            && (!NotBlank(d.callbackUrl) ==> out.url == cfg.webhookUrl)
            && (d.stream || ShowsEnd(m.frame)))
      && (out.NotFinal? <==> Wanted(cfg, m) && !d.stream && !ShowsEnd(m.frame))
  {
    var mem := After(ops, cfg.deliveryTTL);
    AnswerIsExpected(ops, m.sessionKey, env.now, cfg.deliveryTTL);
    OfferedIff(cfg, mem, m, env);
    PassesIff(cfg, m);
    FinalIff(m);
    hide ShowsEnd, IsFinalEvent, Wanted, Passes, Expected, TrimSpace, After, OutboundKey;
    hide Memory.Answer, Memory.AfterGet;
  }

  function Restarts(ops: seq<Op>): nat {
    if ops == [] then 0 else Restarts(ops[..|ops| - 1]) + (if ops[|ops| - 1].Restart? then 1 else 0)
  }

  /** The table knows the key and the cache does not: a stale answer may be waiting. */
  function Exposed(mem: Memory, key: string): nat {
    if key in mem.tables.sessions && key !in mem.cache then 1 else 0
  }

  predicate IsStaleGet(mem: Memory, op: Op, key: string, ttl: int) {
    op.Get? && TrimSpace(op.key) == key && AnswersStale(mem, op.key, op.now, ttl)
  }

  /** How many gets of a (trimmed) key were answered with an expired setting. */
  function StaleAnswers(ops: seq<Op>, key: string, ttl: int): nat {
    if ops == [] then 0
    else
      var before, op := ops[..|ops| - 1], ops[|ops| - 1];
      StaleAnswers(before, key, ttl) +
      (if IsStaleGet(After(before, ttl), op, key, ttl) then 1 else 0)
  }

  /** Only a restart exposes a key, and a stale answer covers it again. */
  lemma StepExposure(mem: Memory, op: Op, key: string, ttl: int)
    requires mem.tables.enabled
    ensures (if IsStaleGet(mem, op, key, ttl) then 1 else 0) + Exposed(Exec(mem, op, ttl), key)
      <= Exposed(mem, key) + (if op.Restart? then 1 else 0)
  {
    var mem' := Exec(mem, op, ttl);
    if !op.Restart? && TrimSpace(op.key) != key {
      assert key in mem'.cache <==> key in mem.cache;
      assert key in mem'.tables.sessions <==> key in mem.tables.sessions;
    }
  }

  /** Each restart can cost a key at most one expired answer: reading the row puts it in the cache,
      where the next get drops it from both. */
  lemma {:induction false} StaleAnswersBounded(ops: seq<Op>, key: string, ttl: int)
    ensures StaleAnswers(ops, key, ttl) + Exposed(After(ops, ttl), key) <= Restarts(ops)
    decreases |ops|
  {
    if ops != [] {
      var n := |ops| - 1;
      StaleAnswersBounded(ops[..n], key, ttl);
      StepExposure(After(ops[..n], ttl), ops[n], key, ttl);
    }
  }

  /** The bound is met: one restart, one answer well past the lifetime. */
  lemma StaleAnswerHappens()
    ensures var ops := [Set("s", "http://x", false, 0), Restart(100), Get("s", 100)];
      StaleAnswers(ops, "s", 10) == 1 == Restarts(ops)
    ensures After([Set("s", "http://x", false, 0), Restart(100)], 10).Answer("s", 100, 10, Healthy) ==
      Session("http://x", false, 0)
  {
    var o1 := [Set("s", "http://x", false, 0)];
    var o2 := o1 + [Restart(100)];
    var o3 := o2 + [Get("s", 100)];
    TrimFixed("s", IsSpace);
    assert o3[..2] == o2 && o2[..1] == o1 && o1[..0] == [];
    assert After(o1, 10) == START.Put("s", "http://x", false, 0, 0, Healthy);
    assert After(o2, 10) == After(o1, 10).(cache := map[]);
    assert o2 == [Set("s", "http://x", false, 0), Restart(100)];
    assert o3 == [Set("s", "http://x", false, 0), Restart(100), Get("s", 100)];
    assert StaleAnswers(o1, "s", 10) == 0 && StaleAnswers(o2, "s", 10) == 0;
    assert Restarts(o1) == 0 && Restarts(o2) == 1;
  }
}
