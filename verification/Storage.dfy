/** The two tables behind the bridge (internal/store/store.go): session delivery settings and
    dedupe keys. PostgreSQL is replaced by maps, one clock serves the process and the database, and
    every statement may be hit by a fault, before or after it took effect. */
module Storage {
  import opened GoText

  datatype Row = Row(kind: string, expiresAt: int)

  datatype Session = Session(callbackUrl: string, stream: bool, at: int)

  datatype Fault = Healthy | Broken(applied: bool)

  function InsertIfAbsent(t: map<string, Row>, key: string, row: Row): map<string, Row> {
    if key in t then t else t[key := row]
  }

  function Unexpired(t: map<string, Row>, now: int): map<string, Row> {
    map k | k in t && now <= t[k].expiresAt :: t[k]
  }

  /** What the two tables hold; a disabled store answers without looking. */
  datatype Tables = Tables(enabled: bool, dedupe: map<string, Row>, sessions: map<string, Session>) {

    predicate Runs(f: Fault) { enabled && (f.Healthy? || f.applied) }

    function Upsert(key: string, url: string, stream: bool, now: int, f: Fault): Tables {
      if Runs(f) then this.(sessions := sessions[key := Session(url, stream, now)]) else this
    }

    /** None is an error; Some(None) is no row. */
    function Lookup(key: string, f: Fault): Option<Option<Session>> {
      if !enabled then Some(None)
      else if f.Broken? then None
      else if key in sessions then Some(Some(sessions[key])) else Some(None)
    }

    function Delete(key: string, f: Fault): Tables {
      if Runs(f) then this.(sessions := sessions - {key}) else this
    }

    function Insert(kind: string, key: string, ttl: int, now: int, f: Fault): (r: Tables)
      ensures r.enabled == enabled && r.sessions == sessions
    {
      if Runs(f) && NotBlank(key) then this.(dedupe := InsertIfAbsent(dedupe, key, Row(kind, now + ttl))) else this
    }

    /** None is an error. A disabled store and a blank key are always new. */
    function IsNew(key: string, f: Fault): Option<bool> {
      if !enabled || !NotBlank(key) then Some(true) else if f.Broken? then None else Some(key !in dedupe)
    }

    function Purge(now: int, f: Fault): Tables {
      if Runs(f) then this.(dedupe := Unexpired(dedupe, now)) else this
    }
  }

  class Store {
    var enabled: bool
    var dedupe: map<string, Row>
    var sessions: map<string, Session>

    function Model(): Tables
      reads this
    {
      Tables(enabled, dedupe, sessions)
    }

    /** The database is used only when an address is configured, it answers and has its schema. */
    constructor (databaseUrl: string, opens: bool, answers: bool, schema: bool, stored: Tables)
      ensures Model() == stored.(enabled := NotBlank(databaseUrl) && opens && answers && schema)
    {
      enabled := false;
      dedupe, sessions := stored.dedupe, stored.sessions;
      if NotBlank(databaseUrl) && opens && answers {
        enabled := schema;
      }
    }

    method UpsertSessionDelivery(key: string, url: string, stream: bool, now: int, f: Fault) returns (ok: bool)
      modifies this`sessions
      ensures Model() == old(Model()).Upsert(key, url, stream, now, f)
      ensures ok <==> !enabled || f.Healthy?
    {
      if !enabled { return true; }
      if f.Broken? && !f.applied { return false; }
      sessions := sessions[key := Session(url, stream, now)];
      ok := f.Healthy?;
    }

    method GetSessionDelivery(key: string, f: Fault) returns (r: Option<Option<Session>>)
      ensures r == Model().Lookup(key, f)
    {
      if !enabled { return Some(None); }
      if f.Broken? { return None; }
      if key !in sessions { return Some(None); }
      r := Some(Some(sessions[key]));
    }

    method DeleteSessionDelivery(key: string, f: Fault) returns (ok: bool)
      modifies this`sessions
      ensures Model() == old(Model()).Delete(key, f)
      ensures ok <==> !enabled || f.Healthy?
    {
      if !enabled { return true; }
      if f.Broken? && !f.applied { return false; }
      sessions := sessions - {key};
      ok := f.Healthy?;
    }

    method RegisterDedupeKey(kind: string, key: string, ttl: int, now: int, f: Fault) returns (isNew: Option<bool>)
      modifies this`dedupe
      ensures Model() == old(Model()).Insert(kind, key, ttl, now, f)
      ensures isNew == old(Model()).IsNew(key, f)
    {
      if !enabled { return Some(true); }
      NotBlankIsTrim(key);
      if TrimSpace(key) == "" { return Some(true); }
      var affected := 0;
      if f.Healthy? || f.applied {
        if key !in dedupe {
          dedupe := dedupe[key := Row(kind, now + ttl)];
          affected := 1;
        }
      }
      if f.Broken? { return None; }
      isNew := Some(affected > 0);
    }

    method CleanupExpiredDedupeKeys(now: int, f: Fault) returns (ok: bool)
      modifies this`dedupe
      ensures Model() == old(Model()).Purge(now, f)
      ensures ok <==> !enabled || f.Healthy?
    {
      if !enabled { return true; }
      if f.Broken? && !f.applied { return false; }
      dedupe := map k | k in dedupe && !(dedupe[k].expiresAt < now) :: dedupe[k];
      ok := f.Healthy?;
    }
  }

  // ----- runs of registrations and cleanups on a healthy store -----

  datatype Op = Register(kind: string, key: string, ttl: int, now: int) | Cleanup(now: int)

  function Exec(t: Tables, op: Op): Tables {
    match op
    case Register(kind, key, ttl, now) => t.Insert(kind, key, ttl, now, Healthy)
    case Cleanup(now) => t.Purge(now, Healthy)
  }

  const EMPTY := Tables(true, map[], map[])

  /** The tables before operation n. */
  function Before(ops: seq<Op>, n: nat): Tables
    requires n <= |ops|
    ensures Before(ops, n).enabled
  {
    if n == 0 then EMPTY else Exec(Before(ops, n - 1), ops[n - 1])
  }

  predicate Accepted(ops: seq<Op>, i: nat) {
    i < |ops| && ops[i].Register? && Before(ops, i).IsNew(ops[i].key, Healthy) == Some(true)
  }

  /** Acceptance i has not been cleaned up by any cleanup before n: none ran later than its expiry. */
  predicate Standing(ops: seq<Op>, i: nat, n: nat) {
    && i < n <= |ops| && Accepted(ops, i)
    && forall c :: i < c < n && ops[c].Cleanup? ==> ops[c].now <= ops[i].now + ops[i].ttl
  }

  /** The table holds a key exactly when one acceptance of it still stands, with its expiry. */
  lemma {:induction false} TableIsStanding(ops: seq<Op>, n: nat, key: string)
    requires n <= |ops| && NotBlank(key)
    ensures key in Before(ops, n).dedupe <==> exists i :: 0 <= i < n && Standing(ops, i, n) && ops[i].key == key
    ensures forall i :: 0 <= i < n && Standing(ops, i, n) && ops[i].key == key ==>
      key in Before(ops, n).dedupe && Before(ops, n).dedupe[key].expiresAt == ops[i].now + ops[i].ttl
  {
    if n > 0 {
      TableIsStanding(ops, n - 1, key);
      var last := ops[n - 1];
      var t, t' := Before(ops, n - 1).dedupe, Before(ops, n).dedupe;
      forall i | 0 <= i < n && Standing(ops, i, n) && ops[i].key == key
        ensures key in t' && t'[key].expiresAt == ops[i].now + ops[i].ttl
      {
        if i < n - 1 { assert Standing(ops, i, n - 1); }
      }
      if key in t' {
        if key in t {
          var i :| 0 <= i < n - 1 && Standing(ops, i, n - 1) && ops[i].key == key;
          assert Standing(ops, i, n);
        } else {
          assert Standing(ops, n - 1, n);
        }
      }
    }
  }

  /** A registration is refused exactly when an earlier acceptance of the same key still stands. */
  lemma RefusedIffStanding(ops: seq<Op>, j: nat)
    requires j < |ops| && ops[j].Register? && NotBlank(ops[j].key)
    ensures !Accepted(ops, j) <==> exists i :: 0 <= i < j && Standing(ops, i, j) && ops[i].key == ops[j].key
  {
    TableIsStanding(ops, j, ops[j].key);
  }

  ghost predicate ClockRuns(ops: seq<Op>) {
    forall i, j :: 0 <= i < j < |ops| ==> ops[i].now <= ops[j].now
  }

  /** Two acceptances of one key are more than the first one's lifetime apart, and a cleanup ran
      in between: without cleanups a key is accepted at most once ever, expired or not. */
  lemma AcceptancesApart(ops: seq<Op>, i: nat, j: nat)
    requires ClockRuns(ops) && i < j && Accepted(ops, i) && Accepted(ops, j)
    requires ops[i].key == ops[j].key && NotBlank(ops[i].key)
    ensures exists c :: i < c < j && ops[c].Cleanup? && ops[i].now + ops[i].ttl < ops[c].now
    ensures ops[i].now + ops[i].ttl < ops[j].now
  {
    RefusedIffStanding(ops, j);
    assert !Standing(ops, i, j);
  }

  /** The configured lifetime alone never frees a key: long after expiry it is still refused. */
  lemma ExpiryAloneDoesNotFree(kind: string, key: string, ttl: int, t0: int, t1: int)
    requires NotBlank(key)
    ensures !Accepted([Register(kind, key, ttl, t0), Register(kind, key, ttl, t1)], 1)
  {
    var ops := [Register(kind, key, ttl, t0), Register(kind, key, ttl, t1)];
    assert Before(ops, 0) == EMPTY;
    assert Accepted(ops, 0);
    assert Standing(ops, 0, 1);
    RefusedIffStanding(ops, 1);
  }
}
