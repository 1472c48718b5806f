/** The RPC multiplexer over one reconnecting WebSocket (internal/wsclient/client.go, internal/app/app.go):
    any number of calls, one Serve goroutine that connects, reads, resolves, tears down and reconnects.
    A step is one critical section, one channel action or the start or end of one write. A call makes
    exactly one reply channel, so channels are named by their calls. */
module Mux {
  import opened GoText
  import opened Frames
  import opened RequestIds

  /** A decoded frame as far as the reader looks at it. */
  datatype Incoming = Incoming(isRes: bool, id: string, frame: Frame)

  datatype Reply = FrameReply(f: Incoming) | Closed

  datatype Outcome = GotFrame(f: Incoming) | ConnectionLost | TimedOut | WriteFailed | NotConnected

  /** Where a call stands; `k` is the connection it read. From Registered to Leaving it owes the map
      an unregistration. */
  datatype CallAt =
    | Fresh | Connected(k: int) | Registered(k: int) | Writing(k: int) | Waiting(k: int)
    | Leaving(o: Outcome) | Done(o: Outcome)

  /** `sent` is every reply ever put into the call's channel, `slot` what the channel holds now; `late`
      says that the call registered after the swap of the connection it had read. */
  datatype Call = Call(
    kind: Kind, step: nat, origin: int, id: string, at: CallAt, slot: Option<Reply>, sent: seq<Reply>, late: bool)

  /** Where the Serve goroutine stands. In Handing it holds the one channel it took out of the map; in
      Clearing it holds the swapped-out map and has still to notify `left`. */
  datatype ServeAt =
    | Down | Dialed(k: int) | ConnectWriting(k: int) | Handshaking(k: int) | Opened(k: int)
    | Active(k: int) | AutoWriting(k: int) | Reading(k: int) | Handing(k: int, c: int, f: Incoming)
    | Returning(k: int) | Clearing(k: int, left: map<string, int>) | Closing(k: int)

  datatype Dest = ToCall(c: int) | ToHandler(h: int)

  /** Every frame decoded by the read loop, where it went, and what the handlers were given. */
  datatype Traffic = Traffic(read: seq<Incoming>, dest: seq<Dest>, handled: seq<Incoming>)

  datatype State = State(
    counter: nat,
    conn: Option<int>,
    pending: map<string, int>,
    calls: map<int, Call>,
    serve: ServeAt,
    writer: Option<int>,      // the call holding writeMu
    handshaken: set<int>,
    closed: set<int>,
    conns: int,               // connections dialed so far
    // history
    fell: set<int>,           // creates that were retried
    swapped: set<int>,        // calls found in the map by some teardown
    torn: set<int>,           // connections whose teardown has swapped the map
    serveIds: set<(Kind, nat)>,  // the requests Serve wrote itself: connects and automatic messages
    dropped: nat,             // sends that met a full channel and took the default branch
    traffic: Traffic)

  datatype Rules = Rules(
    auto: bool,                        // AutoSendOnConnect
    read: string -> Option<Incoming>,
    idOf: (Kind, nat) -> string)

  datatype Label =
    | NewCall(c: int, kind: Kind) | Fallback(c: int, from: int)
    | ReadConn(c: int) | Register(c: int) | LockWrite(c: int) | WriteDone(c: int, ok: bool)
    | Receive(c: int) | Timeout(c: int) | Unregister(c: int)
    | Dial | ChallengeFailed | StartConnect | ConnectWritten(ok: bool) | HandshakeDone(ok: bool) | SetActive
    | AutoStart | AutoWritten(ok: bool)
    | ReadFrame(raw: string) | HandOver | Return
    | Swap | Notify(id: string) | ClearDone | CloseConn

  const INIT := State(0, None, map[], map[], Down, None, {}, {}, 0, {}, {}, {}, {}, 0, Traffic([], [], []))

  // ----- steps of a call -----

  function Move(s: State, c: int, at: CallAt): State
    requires c in s.calls
  {
    s.(calls := s.calls[c := s.calls[c].(at := at)])
  }

  function BeginNext(p: Rules, s: State, l: Label): Option<State> {
    if l.NewCall? && l.c !in s.calls && l.kind in {Send, Create} then
      var n := s.counter + 1;
      Some(s.(counter := n, calls := s.calls[l.c := Call(l.kind, n, l.c, p.idOf(l.kind, n), Fresh, None, [], false)]))
    else if l.Fallback? && l.c !in s.calls && l.from in s.calls && l.from !in s.fell
         && s.calls[l.from].kind == Create && s.calls[l.from].at.Done? then
      var n := s.calls[l.from].step;
      Some(s.(fell := s.fell + {l.from},
              calls := s.calls[l.c :=
                Call(CreateFallback, n, l.from, p.idOf(CreateFallback, n), Fresh, None, [], false)]))
    else None
  }

  function CallNext(s: State, c: int, l: Label): Option<State>
    requires c in s.calls
  {
    var x := s.calls[c];
    if l.ReadConn? && x.at.Fresh? then
      Some(Move(s, c, if s.conn.Some? then Connected(s.conn.value) else Done(NotConnected)))
    else if l.Register? && x.at.Connected? then
      Some(s.(pending := s.pending[x.id := c],
              calls := s.calls[c := x.(at := Registered(x.at.k), late := x.at.k in s.torn)]))
    else if l.LockWrite? && x.at.Registered? && s.writer.None? then
      Some(Move(s.(writer := Some(c)), c, Writing(x.at.k)))
    else if l.WriteDone? && x.at.Writing? && (l.ok ==> x.at.k !in s.closed) then
      Some(Move(s.(writer := None), c, if l.ok then Waiting(x.at.k) else Leaving(WriteFailed)))
    else None
  }

  function WaitNext(s: State, c: int, l: Label): Option<State>
    requires c in s.calls
  {
    var x := s.calls[c];
    if l.Receive? && x.at.Waiting? && x.slot.Some? then
      var got := if x.slot.value.FrameReply? then GotFrame(x.slot.value.f) else ConnectionLost;
      Some(s.(calls := s.calls[c := x.(at := Leaving(got), slot := None)]))
    else if l.Timeout? && x.at.Waiting? then
      Some(Move(s, c, Leaving(TimedOut)))
    else if l.Unregister? && x.at.Leaving? then
      Some(Move(s.(pending := s.pending - {x.id}), c, Done(x.at.o)))
    else None
  }

  // ----- steps of Serve -----

  function ConnectNext(s: State, l: Label): Option<State> {
    var at := s.serve;
    if l.Dial? && at.Down? then Some(s.(serve := Dialed(s.conns), conns := s.conns + 1))
    else if l.ChallengeFailed? && at.Dialed? then Some(s.(serve := Down, closed := s.closed + {at.k}))
    else if l.StartConnect? && at.Dialed? then 
      Some(s.(serve := ConnectWriting(at.k), counter := s.counter + 1,
              serveIds := s.serveIds + {(Connect, s.counter + 1)}))
    else if l.ConnectWritten? && at.ConnectWriting? then
      Some(if l.ok then s.(serve := Handshaking(at.k)) else s.(serve := Down, closed := s.closed + {at.k}))
    else if l.HandshakeDone? && at.Handshaking? then
      Some(if l.ok then s.(serve := Opened(at.k), handshaken := s.handshaken + {at.k})
           else s.(serve := Down, closed := s.closed + {at.k}))
    else None
  }

  function ActivateNext(p: Rules, s: State, l: Label): Option<State> {
    var at := s.serve;
    if l.SetActive? && at.Opened? then
      Some(s.(conn := Some(at.k), serve := if p.auto then Active(at.k) else Reading(at.k)))
    else if l.AutoStart? && at.Active? then
      Some(s.(serve := AutoWriting(at.k), counter := s.counter + 1,
              serveIds := s.serveIds + {(Send, s.counter + 1)}))
    else if l.AutoWritten? && at.AutoWriting? then Some(s.(serve := if l.ok then Reading(at.k) else Returning(at.k)))
    else if l.Return? && at.Reading? then Some(s.(serve := Returning(at.k)))
    else None
  }

  /** A non-blocking send into a one-slot channel. */
  function TrySend(s: State, c: int, r: Reply): State
    requires c in s.calls
  {
    var x := s.calls[c];
    if x.slot.None? then s.(calls := s.calls[c := x.(slot := Some(r), sent := x.sent + [r])])
    else s.(dropped := s.dropped + 1)
  }

  function Routed(s: State, k: int, f: Incoming): State {
    var t := s.traffic;
    if f.isRes && f.id != "" && f.id in s.pending then
      var c := s.pending[f.id];
      s.(pending := s.pending - {f.id}, serve := Handing(k, c, f),
         traffic := Traffic(t.read + [f], t.dest + [ToCall(c)], t.handled))
    else
      s.(traffic := Traffic(t.read + [f], t.dest + [ToHandler(|t.handled|)], t.handled + [f]))
  }

  function ReadNext(p: Rules, s: State, l: Label): Option<State> {
    var at := s.serve;
    if l.ReadFrame? && at.Reading? then
      Some(if p.read(l.raw).None? then s else Routed(s, at.k, p.read(l.raw).value))
    else if l.HandOver? && at.Handing? && at.c in s.calls then
      Some(TrySend(s, at.c, FrameReply(at.f)).(serve := Reading(at.k)))
    else None
  }

  function ClearNext(s: State, l: Label): Option<State> {
    var at := s.serve;
    if l.Swap? && at.Returning? then
      Some(s.(conn := None, pending := map[], serve := Clearing(at.k, s.pending),
              swapped := s.swapped + s.pending.Values, torn := s.torn + {at.k}))
    else if l.Notify? && at.Clearing? && l.id in at.left && at.left[l.id] in s.calls then
      Some(TrySend(s, at.left[l.id], Closed).(serve := Clearing(at.k, at.left - {l.id})))
    else if l.ClearDone? && at.Clearing? && at.left == map[] then Some(s.(serve := Closing(at.k)))
    else if l.CloseConn? && at.Closing? then Some(s.(serve := Down, closed := s.closed + {at.k}))
    else None
  }

  function Next(p: Rules, s: State, l: Label): Option<State> {
    match l
    case NewCall(_, _) => BeginNext(p, s, l)
    case Fallback(_, _) => BeginNext(p, s, l)
    case ReadConn(c) => if c in s.calls then CallNext(s, c, l) else None
    case Register(c) => if c in s.calls then CallNext(s, c, l) else None
    case LockWrite(c) => if c in s.calls then CallNext(s, c, l) else None
    case WriteDone(c, _) => if c in s.calls then CallNext(s, c, l) else None
    case Receive(c) => if c in s.calls then WaitNext(s, c, l) else None
    case Timeout(c) => if c in s.calls then WaitNext(s, c, l) else None
    case Unregister(c) => if c in s.calls then WaitNext(s, c, l) else None
    case Dial => ConnectNext(s, l)
    case ChallengeFailed => ConnectNext(s, l)
    case StartConnect => ConnectNext(s, l)
    case ConnectWritten(_) => ConnectNext(s, l)
    case HandshakeDone(_) => ConnectNext(s, l)
    case SetActive => ActivateNext(p, s, l)
    case AutoStart => ActivateNext(p, s, l)
    case AutoWritten(_) => ActivateNext(p, s, l)
    case Return => ActivateNext(p, s, l)
    case ReadFrame(_) => ReadNext(p, s, l)
    case HandOver => ReadNext(p, s, l)
    case _ => ClearNext(s, l)
  }

  function Play(p: Rules, run: seq<Label>): Option<State> {
    if run == [] then Some(INIT)
    else
      match Play(p, run[..|run| - 1])
      case None => None
      case Some(s) => Next(p, s, run[|run| - 1])
  }

  ghost predicate Reachable(p: Rules, s: State) {
    exists run :: Play(p, run) == Some(s)
  }

  // ----- invariant: identities -----

  ghost predicate IdsDistinct(p: Rules) {
    forall k1, i: nat, k2, j: nat :: i < COUNTER_SPAN && j < COUNTER_SPAN && p.idOf(k1, i) == p.idOf(k2, j) ==>
      k1 == k2 && i == j
  }

  ghost predicate IdentityOk(p: Rules, s: State, c: int) {
    && c in s.calls
    && var x := s.calls[c];
       && x.id == p.idOf(x.kind, x.step) && x.step <= s.counter
       && x.kind in {Send, Create, CreateFallback}
       && (x.kind == CreateFallback ==>
             x.origin in s.calls && x.origin in s.fell && s.calls[x.origin].kind == Create
             && s.calls[x.origin].step == x.step)
  }

  /** A request of Serve's own has a number that no call took. */
  ghost predicate ServeIdOk(s: State, u: (Kind, nat)) {
    && u in s.serveIds && u.0 in {Send, Connect} && u.1 <= s.counter
    && forall c :: c in s.calls ==> s.calls[c].kind != u.0 || s.calls[c].step != u.1
  }

  /** Different calls differ in kind or number, from one another and from Serve's own requests. */
  ghost predicate Identified(p: Rules, s: State) {
    && (forall c :: c in s.calls ==> IdentityOk(p, s, c))
    && (forall u :: u in s.serveIds ==> ServeIdOk(s, u))
    && (forall c, d :: c in s.calls && d in s.calls && c != d ==>
        s.calls[c].kind != s.calls[d].kind || s.calls[c].step != s.calls[d].step)
  }

  /** Serve numbers a request of its own. */
  ghost predicate Numbers(s: State, s': State, kind: Kind) {
    kind in {Send, Connect} && s'.counter > s.counter && s'.serveIds == s.serveIds + {(kind, s'.counter)}
  }

  /** No step but a new call changes who a call is. */
  ghost predicate SamePeople(s: State, s': State) {
    && s.calls.Keys == s'.calls.Keys && s'.fell == s.fell && s.counter <= s'.counter
    && (s'.serveIds == s.serveIds || Numbers(s, s', Send) || Numbers(s, s', Connect))
    && forall c :: c in s.calls ==>
         s'.calls[c].kind == s.calls[c].kind && s'.calls[c].step == s.calls[c].step
         && s'.calls[c].origin == s.calls[c].origin && s'.calls[c].id == s.calls[c].id
  }

  lemma SamePeopleIdentified(p: Rules, s: State, s': State)
    requires Identified(p, s) && SamePeople(s, s')
    ensures Identified(p, s')
  {
    forall c | c in s'.calls ensures IdentityOk(p, s', c) { assert IdentityOk(p, s, c); }
    forall u | u in s'.serveIds ensures ServeIdOk(s', u) {
      if u in s.serveIds {
        assert ServeIdOk(s, u);
      } else {
        forall c | c in s'.calls ensures s'.calls[c].step != u.1 { assert IdentityOk(p, s, c); }
      }
    }
  }

  lemma BeginKeepsIdentified(p: Rules, s: State, l: Label)
    requires Identified(p, s) && BeginNext(p, s, l).Some?
    ensures Identified(p, BeginNext(p, s, l).value)
  {
    var s' := BeginNext(p, s, l).value;
    forall c | c in s'.calls ensures IdentityOk(p, s', c) { assert c in s.calls ==> IdentityOk(p, s, c); }
    forall u | u in s'.serveIds ensures ServeIdOk(s', u) { assert ServeIdOk(s, u); }
    forall c, d | c in s'.calls && d in s'.calls && c != d
      ensures s'.calls[c].kind != s'.calls[d].kind || s'.calls[c].step != s'.calls[d].step
    {
      assert c in s.calls ==> IdentityOk(p, s, c);
      assert d in s.calls ==> IdentityOk(p, s, d);
    }
  }

  lemma IdsTellCallsApart(p: Rules, s: State, c: int, d: int)
    requires Identified(p, s) && IdsDistinct(p) && s.counter < COUNTER_SPAN
    requires c in s.calls && d in s.calls && s.calls[c].id == s.calls[d].id
    ensures c == d
  {
    assert IdentityOk(p, s, c) && IdentityOk(p, s, d);
  }

  // ----- invariant: who holds a channel -----

  predicate Owes(at: CallAt) { at.Registered? || at.Writing? || at.Waiting? || at.Leaving? }

  predicate InHand(s: State, c: int) { s.serve.Handing? && s.serve.c == c }

  ghost predicate InMap(s: State, c: int) {
    c in s.calls && s.calls[c].id in s.pending && s.pending[s.calls[c].id] == c
  }

  ghost predicate InLeft(s: State, c: int) {
    s.serve.Clearing? && c in s.calls && s.calls[c].id in s.serve.left && s.serve.left[s.calls[c].id] == c
  }

  ghost predicate Held(s: State, c: int) { InMap(s, c) || InHand(s, c) || InLeft(s, c) }

  /** One holder at most; while somebody holds the channel nothing was ever sent into it; and nothing is
      sent twice. */
  ghost predicate ChannelOk(s: State, c: int) {
    && c in s.calls
    && var x := s.calls[c];
       && !(InMap(s, c) && InHand(s, c)) && !(InMap(s, c) && InLeft(s, c))
       && (Held(s, c) ==> x.sent == [] && x.slot.None?)
       && |x.sent| <= 1
       && (x.slot.Some? ==> x.sent == [x.slot.value])
       && ((x.at.Fresh? || x.at.Connected? || x.at == Done(NotConnected)) ==> !Held(s, c) && x.sent == [])
       && (x.at.Done? ==> !InMap(s, c)) && x.at != Leaving(NotConnected)
       && (Owes(x.at) ==> Held(s, c) || x.sent != [])
       && (x.sent != [] && (x.at.Registered? || x.at.Writing? || x.at.Waiting?) ==> x.slot == Some(x.sent[0]))
       && (c in s.swapped ==> InLeft(s, c) || x.sent == [Closed])
  }

  ghost predicate PendingOk(s: State, id: string) {
    id in s.pending && s.pending[id] in s.calls && s.calls[s.pending[id]].id == id && Owes(s.calls[s.pending[id]].at)
  }

  ghost predicate LeftOk(s: State, id: string) {
    s.serve.Clearing? && id in s.serve.left && s.serve.left[id] in s.calls && s.calls[s.serve.left[id]].id == id
  }

  ghost predicate Owned(s: State) {
    && (forall c :: c in s.calls ==> ChannelOk(s, c))
    && (forall id :: id in s.pending ==> PendingOk(s, id))
    && (s.serve.Clearing? ==> forall id :: id in s.serve.left ==> LeftOk(s, id))
    && (s.serve.Handing? ==> s.serve.c in s.calls)
    && (forall c :: c in s.swapped ==> c in s.calls)
    && s.dropped == 0
  }

  ghost predicate UniqueIds(s: State) {
    forall c, d :: c in s.calls && d in s.calls && s.calls[c].id == s.calls[d].id ==> c == d
  }

  lemma BeginKeepsOwned(p: Rules, s: State, l: Label)
    requires Owned(s) && BeginNext(p, s, l).Some? && UniqueIds(BeginNext(p, s, l).value)
    ensures Owned(BeginNext(p, s, l).value)
  {
    var s' := BeginNext(p, s, l).value;
    forall c | c in s'.calls ensures ChannelOk(s', c) {
      if c in s.calls { assert ChannelOk(s, c); }
      else if s'.calls[c].id in s.pending { assert PendingOk(s, s'.calls[c].id); }
    }
    forall id | id in s'.pending ensures PendingOk(s', id) { assert PendingOk(s, id); }
    if s'.serve.Clearing? {
      forall id | id in s'.serve.left ensures LeftOk(s', id) { assert LeftOk(s, id); }
    }
  }

  /** Registering overwrites nothing: the id is not in the map. */
  lemma RegisterKeepsOwned(s: State, c: int)
    requires Owned(s) && UniqueIds(s) && c in s.calls && s.calls[c].at.Connected?
    ensures s.calls[c].id !in s.pending
    ensures Owned(CallNext(s, c, Register(c)).value)
  {
    var s' := CallNext(s, c, Register(c)).value;
    var id := s.calls[c].id;
    assert ChannelOk(s, c);
    assert id in s.pending ==> PendingOk(s, id);
    forall d | d in s'.calls ensures ChannelOk(s', d) { assert ChannelOk(s, d); }
    forall i | i in s'.pending ensures PendingOk(s', i) { assert i in s.pending ==> PendingOk(s, i); }
    if s'.serve.Clearing? {
      forall i | i in s'.serve.left ensures LeftOk(s', i) { assert LeftOk(s, i); }
    }
  }

  lemma ReadConnIs(s: State, c: int, l: Label)
    requires c in s.calls && l.ReadConn? && CallNext(s, c, l).Some?
    ensures s.calls[c].at.Fresh? && CallNext(s, c, l) == CallNext(s, c, ReadConn(c))
  {}

  lemma ReadConnKeepsOwned(s: State, c: int)
    requires Owned(s) && c in s.calls && s.calls[c].at.Fresh?
    ensures Owned(CallNext(s, c, ReadConn(c)).value)
  {
    var s' := CallNext(s, c, ReadConn(c)).value;
    forall d | d in s'.calls ensures ChannelOk(s', d) { assert ChannelOk(s, d); }
    forall i | i in s'.pending ensures PendingOk(s', i) { assert PendingOk(s, i) && ChannelOk(s, c); }
    if s'.serve.Clearing? {
      forall i | i in s'.serve.left ensures LeftOk(s', i) { assert LeftOk(s, i); }
    }
  }

  lemma CallKeepsOwned(s: State, c: int, l: Label)
    requires Owned(s) && UniqueIds(s) && c in s.calls && (l.LockWrite? || l.WriteDone?) && CallNext(s, c, l).Some?
    ensures Owned(CallNext(s, c, l).value)
  {
    var s' := CallNext(s, c, l).value;
    assert ChannelOk(s, c);
    forall d | d in s'.calls ensures ChannelOk(s', d) { assert ChannelOk(s, d); }
    forall i | i in s'.pending ensures PendingOk(s', i) { assert PendingOk(s, i); }
    if s'.serve.Clearing? {
      forall i | i in s'.serve.left ensures LeftOk(s', i) { assert LeftOk(s, i); }
    }
  }

  lemma UnregisterKeepsOwned(s: State, c: int)
    requires Owned(s) && UniqueIds(s) && c in s.calls && WaitNext(s, c, Unregister(c)).Some?
    ensures Owned(WaitNext(s, c, Unregister(c)).value)
  {
    var s' := WaitNext(s, c, Unregister(c)).value;
    if s.calls[c].id in s.pending { assert PendingOk(s, s.calls[c].id); }
    forall d | d in s'.calls ensures ChannelOk(s', d) { assert ChannelOk(s, d); }
    forall i | i in s'.pending ensures PendingOk(s', i) { assert PendingOk(s, i); }
    if s'.serve.Clearing? {
      forall i | i in s'.serve.left ensures LeftOk(s', i) { assert LeftOk(s, i); }
    }
  }

  lemma WaitKeepsOwned(s: State, c: int, l: Label)
    requires Owned(s) && UniqueIds(s) && c in s.calls && !l.Unregister? && WaitNext(s, c, l).Some?
    ensures Owned(WaitNext(s, c, l).value)
  {
    var s' := WaitNext(s, c, l).value;
    assert ChannelOk(s, c);
    forall d | d in s'.calls ensures ChannelOk(s', d) { assert ChannelOk(s, d); }
    forall i | i in s'.pending ensures PendingOk(s', i) { assert PendingOk(s, i); }
    if s'.serve.Clearing? {
      forall i | i in s'.serve.left ensures LeftOk(s', i) { assert LeftOk(s, i); }
    }
  }

  /** Connecting, activating: the map, the channels and the hands stay as they are. */
  lemma QuietKeepsOwned(s: State, s': State)
    requires Owned(s) && s'.calls == s.calls && s'.pending == s.pending && s'.swapped == s.swapped
    requires s'.dropped == s.dropped
    requires !s.serve.Clearing? && !s.serve.Handing? && !s'.serve.Clearing? && !s'.serve.Handing?
    ensures Owned(s')
  {
    forall c | c in s'.calls ensures ChannelOk(s', c) { assert ChannelOk(s, c); }
    forall id | id in s'.pending ensures PendingOk(s', id) { assert PendingOk(s, id); }
  }

  lemma RoutedKeepsOwned(s: State, k: int, f: Incoming)
    requires Owned(s) && UniqueIds(s) && s.serve.Reading?
    ensures Owned(Routed(s, k, f))
  {
    var s' := Routed(s, k, f);
    if f.id in s.pending { assert PendingOk(s, f.id); }
    forall c | c in s'.calls ensures ChannelOk(s', c) { assert ChannelOk(s, c); }
    forall id | id in s'.pending ensures PendingOk(s', id) { assert PendingOk(s, id); }
  }

  /** The channel somebody holds is empty: a send into it never takes the default branch. */
  lemma HandOverKeepsOwned(s: State)
    requires Owned(s) && s.serve.Handing? && s.serve.c in s.calls
    ensures s.calls[s.serve.c].slot.None?
    ensures Owned(TrySend(s, s.serve.c, FrameReply(s.serve.f)).(serve := Reading(s.serve.k)))
  {
    var s' := TrySend(s, s.serve.c, FrameReply(s.serve.f)).(serve := Reading(s.serve.k));
    assert ChannelOk(s, s.serve.c);
    forall c | c in s'.calls ensures ChannelOk(s', c) { assert ChannelOk(s, c); }
    forall id | id in s'.pending ensures PendingOk(s', id) { assert PendingOk(s, id); }
  }

  lemma SwapKeepsOwned(s: State)
    requires Owned(s) && s.serve.Returning?
    ensures Owned(ClearNext(s, Swap).value)
  {
    var s' := ClearNext(s, Swap).value;
    forall c | c in s'.calls ensures ChannelOk(s', c) {
      assert ChannelOk(s, c);
      if c in s.pending.Values {
        var id :| id in s.pending && s.pending[id] == c;
        assert PendingOk(s, id);
      }
    }
    forall id | id in s'.serve.left ensures LeftOk(s', id) { assert PendingOk(s, id); }
    forall c | c in s'.swapped ensures c in s'.calls {
      if c in s.pending.Values {
        var id :| id in s.pending && s.pending[id] == c;
        assert PendingOk(s, id);
      }
    }
  }

  lemma NotifyKeepsOwned(s: State, id: string)
    requires Owned(s) && s.serve.Clearing? && id in s.serve.left && s.serve.left[id] in s.calls
    ensures s.calls[s.serve.left[id]].slot.None?
    ensures Owned(ClearNext(s, Notify(id)).value)
  {
    var s' := ClearNext(s, Notify(id)).value;
    var c := s.serve.left[id];
    assert LeftOk(s, id) && ChannelOk(s, c);
    forall d | d in s'.calls ensures ChannelOk(s', d) { assert ChannelOk(s, d); }
    forall i | i in s'.pending ensures PendingOk(s', i) { assert PendingOk(s, i); }
    forall i | i in s'.serve.left ensures LeftOk(s', i) { assert LeftOk(s, i); }
  }

  lemma ClearEndsOwned(s: State, s': State)
    requires Owned(s) && s' == s.(serve := s'.serve, closed := s'.closed)
    requires (s.serve.Clearing? && s.serve.left == map[]) || s.serve.Closing?
    requires s'.serve.Closing? || s'.serve.Down?
    ensures Owned(s')
  {
    forall c | c in s'.calls ensures ChannelOk(s', c) { assert ChannelOk(s, c); }
    forall id | id in s'.pending ensures PendingOk(s', id) { assert PendingOk(s, id); }
  }

  // ----- invariant: connections and writers -----

  predicate UpTo(at: ServeAt) { at.Dialed? || at.ConnectWriting? || at.Handshaking? }

  predicate Live(at: ServeAt) {
    at.Active? || at.AutoWriting? || at.Reading? || at.Handing? || at.Returning?
  }

  ghost predicate ServeOk(p: Rules, s: State) {
    && (!s.serve.Down? ==>
        s.serve.k + 1 == s.conns && s.serve.k !in s.closed && (s.serve.k in s.handshaken <==> !UpTo(s.serve)))
    && (s.serve.Active? || s.serve.AutoWriting? ==> p.auto)
    && s.conn == (if Live(s.serve) then Some(s.serve.k) else None)
  }

  ghost predicate CallGateOk(s: State, c: int) {
    && c in s.calls
    && var at := s.calls[c].at;
       && (at.Connected? || at.Registered? || at.Writing? ==> at.k in s.handshaken)
       && (at.Writing? <==> s.writer == Some(c))
  }

  ghost predicate Gated(p: Rules, s: State) {
    && ServeOk(p, s)
    && (forall k :: k in s.handshaken || k in s.closed ==> k < s.conns)
    && (forall c :: c in s.calls ==> CallGateOk(s, c))
    && (s.writer.Some? ==> s.writer.value in s.calls)
  }

  lemma BeginKeepsGated(p: Rules, s: State, l: Label)
    requires Gated(p, s) && BeginNext(p, s, l).Some?
    ensures Gated(p, BeginNext(p, s, l).value)
  {
    var s' := BeginNext(p, s, l).value;
    forall c | c in s'.calls ensures CallGateOk(s', c) { assert c in s.calls ==> CallGateOk(s, c); }
  }

  lemma CallKeepsGated(p: Rules, s: State, c: int, l: Label)
    requires Gated(p, s) && c in s.calls && CallNext(s, c, l).Some?
    ensures Gated(p, CallNext(s, c, l).value)
  {
    var s' := CallNext(s, c, l).value;
    assert CallGateOk(s, c);
    forall d | d in s'.calls ensures CallGateOk(s', d) { assert CallGateOk(s, d); }
  }

  lemma WaitKeepsGated(p: Rules, s: State, c: int, l: Label)
    requires Gated(p, s) && c in s.calls && WaitNext(s, c, l).Some?
    ensures Gated(p, WaitNext(s, c, l).value)
  {
    var s' := WaitNext(s, c, l).value;
    assert CallGateOk(s, c);
    forall d | d in s'.calls ensures CallGateOk(s', d) { assert CallGateOk(s, d); }
  }

  /** Serve's own steps leave every call where it is. */
  lemma ServeKeepsGated(p: Rules, s: State, s': State)
    requires Gated(p, s) && ServeOk(p, s') && s'.calls.Keys == s.calls.Keys
    requires forall c :: c in s.calls ==> s'.calls[c].at == s.calls[c].at
    requires s'.writer == s.writer && s.handshaken <= s'.handshaken
    requires forall k :: k in s'.handshaken || k in s'.closed ==> k < s'.conns
    ensures Gated(p, s')
  {
    forall c | c in s'.calls ensures CallGateOk(s', c) { assert CallGateOk(s, c); }
  }

  // ----- invariant: where frames go -----

  ghost predicate RouteOk(s: State, i: int) {
    && 0 <= i < |s.traffic.dest| == |s.traffic.read|
    && var f := s.traffic.read[i];
       match s.traffic.dest[i]
       case ToCall(c) =>
         && c in s.calls && f.isRes && f.id == s.calls[c].id
         && ((s.serve.Handing? && s.serve.c == c && s.serve.f == f) || s.calls[c].sent == [FrameReply(f)])
       case ToHandler(h) => 0 <= h < |s.traffic.handled| && s.traffic.handled[h] == f
  }

  predicate Ended(at: CallAt) { at.Leaving? || at.Done? }

  /** What a call may end with, given the replies it was sent. */
  predicate FitsReplies(o: Outcome, sent: seq<Reply>) {
    match o
    case GotFrame(f) => sent == [FrameReply(f)]
    case ConnectionLost => sent == [Closed]
    case NotConnected => sent == []
    case TimedOut => true
    case WriteFailed => true
  }

  ghost predicate ResultOk(s: State, c: int) {
    && c in s.calls
    && var x := s.calls[c];
       && (Ended(x.at) ==> FitsReplies(x.at.o, x.sent))
       && (|x.sent| == 1 && x.sent[0].FrameReply? ==> ToCall(c) in s.traffic.dest)
  }

  ghost predicate Conserved(s: State) {
    && |s.traffic.dest| == |s.traffic.read|
    && (forall i :: 0 <= i < |s.traffic.dest| ==> RouteOk(s, i))
    && (forall i, j :: 0 <= i < j < |s.traffic.dest| ==> s.traffic.dest[i] != s.traffic.dest[j])
    && (forall h :: 0 <= h < |s.traffic.handled| ==> ToHandler(h) in s.traffic.dest)
    && (forall c :: c in s.calls ==> ResultOk(s, c))
    && (s.serve.Handing? ==> ToCall(s.serve.c) in s.traffic.dest)
  }

  /** No step but reading and handing over touches what was routed. */
  lemma OthersKeepConserved(s: State, s': State)
    requires Conserved(s) && s'.traffic == s.traffic && s.calls.Keys <= s'.calls.Keys
    requires forall c :: c in s.calls ==>
      s'.calls[c].sent == s.calls[c].sent && s'.calls[c].id == s.calls[c].id && ResultOk(s', c)
    requires forall c :: c in s'.calls && c !in s.calls ==> ResultOk(s', c)
    requires s'.serve == s.serve || (!s.serve.Handing? && !s'.serve.Handing?)
    ensures Conserved(s')
  {
    forall i | 0 <= i < |s'.traffic.dest| ensures RouteOk(s', i) { assert RouteOk(s, i); }
  }

  lemma BeginKeepsConserved(p: Rules, s: State, l: Label)
    requires Conserved(s) && BeginNext(p, s, l).Some?
    ensures Conserved(BeginNext(p, s, l).value)
  {
    var s' := BeginNext(p, s, l).value;
    forall c | c in s.calls ensures ResultOk(s', c) { assert ResultOk(s, c); }
    OthersKeepConserved(s, s');
  }

  lemma CallKeepsConserved(s: State, c: int, l: Label)
    requires Conserved(s) && Owned(s) && c in s.calls && CallNext(s, c, l).Some?
    ensures Conserved(CallNext(s, c, l).value)
  {
    var s' := CallNext(s, c, l).value;
    assert ChannelOk(s, c);
    forall d | d in s.calls ensures ResultOk(s', d) { assert ResultOk(s, d); }
    OthersKeepConserved(s, s');
  }

  lemma WaitKeepsConserved(s: State, c: int, l: Label)
    requires Conserved(s) && Owned(s) && c in s.calls && WaitNext(s, c, l).Some?
    ensures Conserved(WaitNext(s, c, l).value)
  {
    var s' := WaitNext(s, c, l).value;
    assert ChannelOk(s, c) && ResultOk(s, c);
    forall d | d in s.calls ensures ResultOk(s', d) { assert ResultOk(s, d); }
    OthersKeepConserved(s, s');
  }

  lemma QuietKeepsConserved(s: State, s': State)
    requires Conserved(s) && s'.traffic == s.traffic && s'.calls == s.calls && !s.serve.Handing? && !s'.serve.Handing?
    ensures Conserved(s')
  {
    forall c | c in s.calls ensures ResultOk(s', c) { assert ResultOk(s, c); }
    OthersKeepConserved(s, s');
  }

  /** A frame goes to a call that never had one, or to a handler of its own. */
  lemma RoutedKeepsConserved(s: State, k: int, f: Incoming)
    requires Conserved(s) && Owned(s) && s.serve.Reading?
    ensures Conserved(Routed(s, k, f))
  {
    var s' := Routed(s, k, f);
    var n := |s.traffic.dest|;
    if f.id in s.pending {
      assert PendingOk(s, f.id);
      assert ChannelOk(s, s.pending[f.id]);
    }
    forall i | 0 <= i < |s'.traffic.dest| ensures RouteOk(s', i) { if i < n { assert RouteOk(s, i); } }
    forall i, j | 0 <= i < j < |s'.traffic.dest| ensures s'.traffic.dest[i] != s'.traffic.dest[j] {
      if j == n { assert RouteOk(s, i); }
    }
    forall h | 0 <= h < |s'.traffic.handled| ensures ToHandler(h) in s'.traffic.dest {
      assert if h < |s.traffic.handled| then ToHandler(h) in s.traffic.dest else s'.traffic.dest[n] == ToHandler(h);
    }
    forall c | c in s'.calls ensures ResultOk(s', c) { assert ResultOk(s, c); }
    if s'.serve.Handing? { assert s'.traffic.dest[n] == ToCall(s'.serve.c); }
  }

  lemma HandOverKeepsConserved(s: State)
    requires Conserved(s) && Owned(s) && s.serve.Handing? && s.serve.c in s.calls
    ensures Conserved(TrySend(s, s.serve.c, FrameReply(s.serve.f)).(serve := Reading(s.serve.k)))
  {
    var s' := TrySend(s, s.serve.c, FrameReply(s.serve.f)).(serve := Reading(s.serve.k));
    assert ChannelOk(s, s.serve.c) && ResultOk(s, s.serve.c);
    forall c | c in s'.calls ensures ResultOk(s', c) { assert ResultOk(s, c); }
    forall i | 0 <= i < |s'.traffic.dest| ensures RouteOk(s', i) { assert RouteOk(s, i); }
  }

  lemma NotifyKeepsConserved(s: State, id: string)
    requires Conserved(s) && Owned(s) && s.serve.Clearing? && id in s.serve.left && s.serve.left[id] in s.calls
    ensures Conserved(ClearNext(s, Notify(id)).value)
  {
    var s' := ClearNext(s, Notify(id)).value;
    var c := s.serve.left[id];
    assert LeftOk(s, id) && ChannelOk(s, c) && ResultOk(s, c);
    forall d | d in s'.calls ensures ResultOk(s', d) { assert ResultOk(s, d); }
    forall i | 0 <= i < |s'.traffic.dest| ensures RouteOk(s', i) { assert RouteOk(s, i); }
  }

  // ----- invariant: who tends a waiter -----

  /** Registered and not yet left: the call reads or will read its channel. */
  predicate Bound(at: CallAt) { at.Registered? || at.Writing? || at.Waiting? }

  /** Connection k is the active one, or its teardown has taken the map. */
  predicate Tracked(s: State, k: int) { k in s.torn || s.conn == Some(k) }

  /** The teardown of connection k holds the call's channel. */
  ghost predicate WithClearer(s: State, c: int, k: int) { s.serve.Clearing? && s.serve.k == k && InLeft(s, c) }

  /** A call is late exactly when it missed its connection's swap. One in time and unanswered is with that
      connection's teardown as soon as there is one; a late one is at best with a later connection's. */
  ghost predicate CareOk(s: State, c: int) {
    && c in s.calls
    && var x := s.calls[c];
       && (x.at.Connected? ==> Tracked(s, x.at.k))
       && (Bound(x.at) ==>
             && Tracked(s, x.at.k)
             && (x.late ==> x.at.k in s.torn)
             && (x.late && (InHand(s, c) || InLeft(s, c)) ==> s.serve.k > x.at.k)
             && (!x.late && x.at.k in s.torn && x.sent == [] ==> WithClearer(s, c, x.at.k)))
  }

  predicate TornOk(s: State) {
    && (forall k :: k in s.torn ==> k < s.conns)
    && (!s.serve.Down? ==> (s.serve.k in s.torn <==> s.serve.Clearing? || s.serve.Closing?))
  }

  ghost predicate Tended(s: State) {
    TornOk(s) && forall c :: c in s.calls ==> CareOk(s, c)
  }

  lemma BeginKeepsTended(p: Rules, s: State, l: Label)
    requires Tended(s) && BeginNext(p, s, l).Some?
    ensures Tended(BeginNext(p, s, l).value)
  {
    var s' := BeginNext(p, s, l).value;
    forall c | c in s'.calls ensures CareOk(s', c) { assert c in s.calls ==> CareOk(s, c); }
  }

  lemma CallKeepsTended(p: Rules, s: State, c: int, l: Label)
    requires Tended(s) && Owned(s) && Gated(p, s) && c in s.calls && CallNext(s, c, l).Some?
    ensures Tended(CallNext(s, c, l).value)
  {
    var s' := CallNext(s, c, l).value;
    assert ChannelOk(s, c) && CareOk(s, c);
    forall d | d in s'.calls ensures CareOk(s', d) { assert CareOk(s, d); }
  }

  lemma WaitKeepsTended(s: State, c: int, l: Label)
    requires Tended(s) && c in s.calls && WaitNext(s, c, l).Some?
    ensures Tended(WaitNext(s, c, l).value)
  {
    var s' := WaitNext(s, c, l).value;
    forall d | d in s'.calls ensures CareOk(s', d) { assert CareOk(s, d); }
  }

  /** Connecting, activating, starting to return: nobody holds a channel before or after. */
  lemma QuietKeepsTended(s: State, s': State)
    requires Tended(s) && TornOk(s') && s'.calls == s.calls && s'.torn == s.torn
    requires (s'.conn == s.conn || s.conn == None)
    requires !s.serve.Clearing? && !s.serve.Handing? && !s'.serve.Clearing? && !s'.serve.Handing?
    ensures Tended(s')
  {
    forall c | c in s'.calls ensures CareOk(s', c) { assert CareOk(s, c); }
  }

  lemma RoutedKeepsTended(p: Rules, s: State, k: int, f: Incoming)
    requires Tended(s) && Gated(p, s) && s.serve == Reading(k)
    ensures Tended(Routed(s, k, f))
  {
    var s' := Routed(s, k, f);
    forall c | c in s'.calls ensures CareOk(s', c) { assert CareOk(s, c); }
  }

  lemma HandOverKeepsTended(s: State)
    requires Tended(s) && s.serve.Handing? && s.serve.c in s.calls
    ensures Tended(TrySend(s, s.serve.c, FrameReply(s.serve.f)).(serve := Reading(s.serve.k)))
  {
    var s' := TrySend(s, s.serve.c, FrameReply(s.serve.f)).(serve := Reading(s.serve.k));
    forall c | c in s'.calls ensures CareOk(s', c) { assert CareOk(s, c); }
  }

  /** The swap takes over everybody who was in time. */
  lemma SwapKeepsTended(p: Rules, s: State)
    requires Tended(s) && Owned(s) && Gated(p, s) && s.serve.Returning?
    ensures Tended(ClearNext(s, Swap).value)
  {
    var s' := ClearNext(s, Swap).value;
    forall c | c in s'.calls ensures CareOk(s', c) { assert CareOk(s, c) && ChannelOk(s, c); }
  }

  lemma NotifyKeepsTended(s: State, id: string)
    requires Tended(s) && Owned(s) && s.serve.Clearing? && id in s.serve.left && s.serve.left[id] in s.calls
    ensures Tended(ClearNext(s, Notify(id)).value)
  {
    var s' := ClearNext(s, Notify(id)).value;
    assert LeftOk(s, id) && ChannelOk(s, s.serve.left[id]);
    forall c | c in s'.calls ensures CareOk(s', c) { assert CareOk(s, c); }
  }

  lemma ClearEndsTended(s: State, s': State)
    requires Tended(s) && TornOk(s') && s' == s.(serve := s'.serve, closed := s'.closed)
    requires (s.serve.Clearing? && s.serve.left == map[]) || s.serve.Closing?
    requires s'.serve.Closing? || s'.serve.Down?
    ensures Tended(s')
  {
    forall c | c in s'.calls ensures CareOk(s', c) { assert CareOk(s, c); }
  }

  // ----- every step keeps all of it -----

  /** While the counter has not wrapped, ids tell calls apart and the rest follows. */
  ghost predicate Inv(p: Rules, s: State) {
    && Identified(p, s) && Gated(p, s)
    && (s.counter < COUNTER_SPAN ==> UniqueIds(s) && Owned(s) && Conserved(s) && Tended(s))
  }

  lemma UniqueFromIdentified(p: Rules, s: State)
    requires IdsDistinct(p) && Identified(p, s) && s.counter < COUNTER_SPAN
    ensures UniqueIds(s)
  {
    forall c, d | c in s.calls && d in s.calls && s.calls[c].id == s.calls[d].id ensures c == d {
      IdsTellCallsApart(p, s, c, d);
    }
  }

  lemma BeginKeeps(p: Rules, s: State, l: Label)
    requires IdsDistinct(p) && Inv(p, s) && BeginNext(p, s, l).Some?
    ensures Inv(p, BeginNext(p, s, l).value)
  {
    var s' := BeginNext(p, s, l).value;
    BeginKeepsIdentified(p, s, l);
    BeginKeepsGated(p, s, l);
    if s'.counter < COUNTER_SPAN {
      UniqueFromIdentified(p, s');
      BeginKeepsOwned(p, s, l);
      BeginKeepsConserved(p, s, l);
      BeginKeepsTended(p, s, l);
    }
  }

  lemma CallKeeps(p: Rules, s: State, c: int, l: Label)
    requires Inv(p, s) && c in s.calls && CallNext(s, c, l).Some?
    ensures Inv(p, CallNext(s, c, l).value)
  {
    hide Identified, Gated, Owned, Conserved;
    SamePeopleIdentified(p, s, CallNext(s, c, l).value);
    CallKeepsGated(p, s, c, l);
    if s.counter < COUNTER_SPAN {
      if l.Register? {
        RegisterKeepsOwned(s, c);
      } else if l.ReadConn? {
        ReadConnIs(s, c, l);
        ReadConnKeepsOwned(s, c);
      } else {
        CallKeepsOwned(s, c, l);
      }
      CallKeepsConserved(s, c, l);
      CallKeepsTended(p, s, c, l);
    }
  }

  lemma WaitKeeps(p: Rules, s: State, c: int, l: Label)
    requires Inv(p, s) && c in s.calls && WaitNext(s, c, l).Some?
    ensures Inv(p, WaitNext(s, c, l).value)
  {
    SamePeopleIdentified(p, s, WaitNext(s, c, l).value);
    WaitKeepsGated(p, s, c, l);
    if s.counter < COUNTER_SPAN {
      if l.Unregister? { UnregisterKeepsOwned(s, c); } else { WaitKeepsOwned(s, c, l); }
      WaitKeepsConserved(s, c, l);
      WaitKeepsTended(s, c, l);
    }
  }

  lemma QuietKeeps(p: Rules, s: State, s': State)
    requires Inv(p, s) && Gated(p, s') && SamePeople(s, s')
    requires s'.calls == s.calls && s'.pending == s.pending && s'.swapped == s.swapped && s'.dropped == s.dropped
    requires s'.traffic == s.traffic
    requires TornOk(s) ==> TornOk(s') && s'.torn == s.torn && (s'.conn == s.conn || s.conn == None)
    requires !s.serve.Clearing? && !s.serve.Handing? && !s'.serve.Clearing? && !s'.serve.Handing?
    ensures Inv(p, s')
  {
    SamePeopleIdentified(p, s, s');
    if s'.counter < COUNTER_SPAN {
      QuietKeepsOwned(s, s');
      QuietKeepsConserved(s, s');
      QuietKeepsTended(s, s');
    }
  }

  lemma ConnectKeepsGated(p: Rules, s: State, l: Label)
    requires Gated(p, s) && ConnectNext(s, l).Some?
    ensures Gated(p, ConnectNext(s, l).value)
  {
    ServeKeepsGated(p, s, ConnectNext(s, l).value);
  }

  lemma ConnectKeeps(p: Rules, s: State, l: Label)
    requires Inv(p, s) && ConnectNext(s, l).Some?
    ensures Inv(p, ConnectNext(s, l).value)
  {
    hide Identified, Gated, Owned, Conserved, UniqueIds, Tended;
    ConnectKeepsGated(p, s, l);
    QuietKeeps(p, s, ConnectNext(s, l).value);
  }

  lemma ActivateKeeps(p: Rules, s: State, l: Label)
    requires Inv(p, s) && ActivateNext(p, s, l).Some?
    ensures Inv(p, ActivateNext(p, s, l).value)
  {
    ServeKeepsGated(p, s, ActivateNext(p, s, l).value);
    QuietKeeps(p, s, ActivateNext(p, s, l).value);
  }

  lemma HandOverKeeps(p: Rules, s: State)
    requires Inv(p, s) && ReadNext(p, s, HandOver).Some?
    ensures Inv(p, ReadNext(p, s, HandOver).value)
  {
    var s' := ReadNext(p, s, HandOver).value;
    ServeKeepsGated(p, s, s');
    SamePeopleIdentified(p, s, s');
    hide Identified, Conserved, Tended;
    if s.counter < COUNTER_SPAN {
      HandOverKeepsOwned(s);
      HandOverKeepsConserved(s);
      HandOverKeepsTended(s);
    }
  }

  lemma RoutedKeeps(p: Rules, s: State, k: int, f: Incoming)
    requires Inv(p, s) && s.serve == Reading(k)
    ensures Inv(p, Routed(s, k, f))
  {
    var s' := Routed(s, k, f);
    ServeKeepsGated(p, s, s');
    SamePeopleIdentified(p, s, s');
    hide Identified, Conserved, Tended;
    if s.counter < COUNTER_SPAN {
      RoutedKeepsOwned(s, k, f);
      RoutedKeepsConserved(s, k, f);
      RoutedKeepsTended(p, s, k, f);
    }
  }

  lemma ReadKeeps(p: Rules, s: State, l: Label)
    requires Inv(p, s) && ReadNext(p, s, l).Some?
    ensures Inv(p, ReadNext(p, s, l).value)
  {
    hide Inv, Routed;
    if l.HandOver? {
      HandOverKeeps(p, s);
    } else if p.read(l.raw).Some? {
      RoutedKeeps(p, s, s.serve.k, p.read(l.raw).value);
    }
  }

  lemma SwapKeeps(p: Rules, s: State)
    requires Inv(p, s) && s.serve.Returning?
    ensures Inv(p, ClearNext(s, Swap).value)
  {
    var s' := ClearNext(s, Swap).value;
    ServeKeepsGated(p, s, s');
    SamePeopleIdentified(p, s, s');
    if s.counter < COUNTER_SPAN {
      SwapKeepsOwned(s);
      SwapKeepsTended(p, s);
      QuietKeepsConserved(s, s');
    }
  }

  lemma NotifyKeeps(p: Rules, s: State, id: string)
    requires Inv(p, s) && ClearNext(s, Notify(id)).Some?
    ensures Inv(p, ClearNext(s, Notify(id)).value)
  {
    var s' := ClearNext(s, Notify(id)).value;
    ServeKeepsGated(p, s, s');
    SamePeopleIdentified(p, s, s');
    if s.counter < COUNTER_SPAN {
      NotifyKeepsOwned(s, id);
      NotifyKeepsConserved(s, id);
      NotifyKeepsTended(s, id);
    }
  }

  lemma ClearKeeps(p: Rules, s: State, l: Label)
    requires Inv(p, s) && ClearNext(s, l).Some?
    ensures Inv(p, ClearNext(s, l).value)
  {
    if l.Swap? {
      SwapKeeps(p, s);
    } else if l.Notify? {
      NotifyKeeps(p, s, l.id);
    } else {
      var s' := ClearNext(s, l).value;
      ServeKeepsGated(p, s, s');
      SamePeopleIdentified(p, s, s');
      if s.counter < COUNTER_SPAN {
        ClearEndsOwned(s, s');
        ClearEndsTended(s, s');
        QuietKeepsConserved(s, s');
      }
    }
  }

  predicate OfCall(l: Label) {
    || l.NewCall? || l.Fallback? || l.ReadConn? || l.Register? || l.LockWrite? || l.WriteDone?
    || l.Receive? || l.Timeout? || l.Unregister?
  }

  lemma CallerKeeps(p: Rules, s: State, l: Label)
    requires IdsDistinct(p) && Inv(p, s) && OfCall(l) && Next(p, s, l).Some?
    ensures Inv(p, Next(p, s, l).value)
  {
    match l
    case NewCall(_, _) => BeginKeeps(p, s, l);
    case Fallback(_, _) => BeginKeeps(p, s, l);
    case Receive(c) => WaitKeeps(p, s, c, l);
    case Timeout(c) => WaitKeeps(p, s, c, l);
    case Unregister(c) => WaitKeeps(p, s, c, l);
    case ReadConn(c) => CallKeeps(p, s, c, l);
    case Register(c) => CallKeeps(p, s, c, l);
    case LockWrite(c) => CallKeeps(p, s, c, l);
    case WriteDone(c, _) => CallKeeps(p, s, c, l);
    case _ =>
  }

  lemma NextKeeps(p: Rules, s: State, l: Label)
    requires IdsDistinct(p) && Inv(p, s) && Next(p, s, l).Some?
    ensures Inv(p, Next(p, s, l).value)
  {
    if OfCall(l) {
      CallerKeeps(p, s, l);
    } else if l.ReadFrame? || l.HandOver? {
      ReadKeeps(p, s, l);
    } else if l.Swap? || l.Notify? || l.ClearDone? || l.CloseConn? {
      ClearKeeps(p, s, l);
    } else if l.SetActive? || l.AutoStart? || l.AutoWritten? || l.Return? {
      ActivateKeeps(p, s, l);
    } else {
      ConnectKeeps(p, s, l);
    }
  }

  lemma {:induction false} RunKeeps(p: Rules, run: seq<Label>)
    requires IdsDistinct(p) && Play(p, run).Some?
    ensures Inv(p, Play(p, run).value)
    decreases |run|
  {
    if run != [] {
      RunKeeps(p, run[..|run| - 1]);
      NextKeeps(p, Play(p, run[..|run| - 1]).value, run[|run| - 1]);
    }
  }

  // ----- the bridge -----

  /** The multiplexer with the bridge's decoding and its request ids. */
  function Bridge(auto: bool, decode: string -> Option<Frame>): Rules {
    Rules(auto,
      raw =>
        if decode(raw).None? then None
        else Some(Incoming(GetString(decode(raw).value, "type") == "res", GetString(decode(raw).value, "id"),
          decode(raw).value)),
      (k: Kind, n: nat) => RequestId(k, n))
  }

  lemma BridgeKeeps(auto: bool, decode: string -> Option<Frame>, s: State)
    requires Reachable(Bridge(auto, decode), s)
    ensures Inv(Bridge(auto, decode), s)
  {
    var p := Bridge(auto, decode);
    assert IdsDistinct(p) by {
      forall k1, i: nat, k2, j: nat | i < COUNTER_SPAN && j < COUNTER_SPAN && p.idOf(k1, i) == p.idOf(k2, j)
        ensures k1 == k2 && i == j
      {
        RequestIdsDistinct(k1, i, k2, j);
      }
    }
    var run :| Play(p, run) == Some(s);
    RunKeeps(p, run);
  }

  /** No reply is ever lost or doubled: each channel is sent to at most once in its life, no send ever
      meets a full channel, a channel has at most one holder (the live map, the resolver or the
      clearer), and what a holder holds is an untouched channel. */
  lemma RepliesNeverLost(auto: bool, decode: string -> Option<Frame>, s: State, c: int)
    requires Reachable(Bridge(auto, decode), s) && s.counter < COUNTER_SPAN && c in s.calls
    ensures s.dropped == 0 && |s.calls[c].sent| <= 1
    ensures !(InMap(s, c) && InHand(s, c)) && !(InMap(s, c) && InLeft(s, c)) && !(InHand(s, c) && InLeft(s, c))
    ensures Held(s, c) ==> s.calls[c].sent == [] && s.calls[c].slot.None?
  {
    BridgeKeeps(auto, decode, s);
    assert ChannelOk(s, c);
  }

  predicate WaitsOn(s: State, c: int, k: int) { c in s.calls && s.calls[c].at == Waiting(k) }

  /** A waiting call has its one reply in its channel, or somebody holds the channel. While its connection
      has not been torn down that is the map or the resolver of this very connection, which is still the
      active one; once it has been, it is that teardown, which has yet to send to it, exactly when the
      call was not late. */
  lemma WaitersAreServed(auto: bool, decode: string -> Option<Frame>, s: State, c: int, k: int)
    requires Reachable(Bridge(auto, decode), s) && s.counter < COUNTER_SPAN && WaitsOn(s, c, k)
    ensures s.calls[c].slot.Some? ==> s.calls[c].sent == [s.calls[c].slot.value] && !Held(s, c)
    ensures s.calls[c].slot.None? ==> s.calls[c].sent == [] && Held(s, c)
    ensures s.calls[c].slot.None? && k !in s.torn ==>
      (!s.calls[c].late && s.conn == Some(k) && (InMap(s, c) || InHand(s, c)))
    ensures s.calls[c].slot.None? && k in s.torn ==> (WithClearer(s, c, k) <==> !s.calls[c].late)
  {
    BridgeKeeps(auto, decode, s);
    assert ChannelOk(s, c) && CareOk(s, c);
  }

  /** Who is stranded: an unanswered call waiting on a connection that has been torn down is in nobody's
      hand, until a later connection is dialed, exactly when it registered after that connection's swap.
      Its entry then lies in the map, and only a later connection can reach it. */
  lemma StrandedIffLate(auto: bool, decode: string -> Option<Frame>, s: State, c: int, k: int)
    requires Reachable(Bridge(auto, decode), s) && s.counter < COUNTER_SPAN
    requires WaitsOn(s, c, k) && s.calls[c].slot.None? && k in s.torn
    ensures s.conns == k + 1 ==> (!InHand(s, c) && !InLeft(s, c) <==> s.calls[c].late)
    ensures s.calls[c].late ==> InMap(s, c) || (!s.serve.Down? && s.serve.k > k)
    ensures !s.calls[c].late ==> s.serve.Clearing? && s.serve.k == k
  {
    BridgeKeeps(auto, decode, s);
    assert ChannelOk(s, c) && CareOk(s, c);
  }

  /** Teardown fails everyone it found: when notification has ended, each call that was in a swapped-out
      map got exactly the closing reply, and if it is still waiting the reply is there to be read. */
  lemma TeardownNotifiesAll(auto: bool, decode: string -> Option<Frame>, s: State, c: int)
    requires Reachable(Bridge(auto, decode), s) && s.counter < COUNTER_SPAN && c in s.swapped && !s.serve.Clearing?
    ensures c in s.calls && s.calls[c].sent == [Closed]
    ensures s.calls[c].at.Waiting? ==> s.calls[c].slot == Some(Closed)
  {
    BridgeKeeps(auto, decode, s);
    assert ChannelOk(s, c);
  }

  /** Nothing leaks: every key of the live map belongs to a call between its registration and its
      unregistration; when no such call is left the map is empty. */
  lemma MapHoldsOnlyLiveCalls(auto: bool, decode: string -> Option<Frame>, s: State)
    requires Reachable(Bridge(auto, decode), s) && s.counter < COUNTER_SPAN
    ensures forall id :: id in s.pending ==> PendingOk(s, id)
    ensures (forall c :: c in s.calls ==> !Owes(s.calls[c].at)) ==> s.pending == map[]
  {
    BridgeKeeps(auto, decode, s);
    if id :| id in s.pending {
      var c := s.pending[id];
      assert PendingOk(s, id);
      assert c in s.calls && Owes(s.calls[c].at);
    } else {
      assert s.pending == map[];
    }
  }

  /** Registering never overwrites a live entry, and unregistering removes nobody else's. */
  lemma EntriesAreOnesOwn(auto: bool, decode: string -> Option<Frame>, s: State, c: int)
    requires Reachable(Bridge(auto, decode), s) && s.counter < COUNTER_SPAN && c in s.calls
    ensures s.calls[c].at.Connected? ==> s.calls[c].id !in s.pending
    ensures s.calls[c].at.Leaving? && s.calls[c].id in s.pending ==> s.pending[s.calls[c].id] == c
  {
    BridgeKeeps(auto, decode, s);
    assert ChannelOk(s, c);
    if s.calls[c].id in s.pending { assert PendingOk(s, s.calls[c].id); }
  }

  /** Correlation: a call that returned a frame returned a response carrying its own id, the one frame
      that was routed to it. */
  lemma CallsGetTheirOwnAnswer(auto: bool, decode: string -> Option<Frame>, s: State, c: int)
    requires Reachable(Bridge(auto, decode), s) && s.counter < COUNTER_SPAN
    requires c in s.calls && s.calls[c].at.Done? && s.calls[c].at.o.GotFrame?
    ensures s.calls[c].at.o.f.isRes && s.calls[c].at.o.f.id == s.calls[c].id
    ensures exists i ::
      0 <= i < |s.traffic.read| == |s.traffic.dest|
      && s.traffic.dest[i] == ToCall(c) && s.traffic.read[i] == s.calls[c].at.o.f
  {
    BridgeKeeps(auto, decode, s);
    assert ResultOk(s, c);
    var i :| 0 <= i < |s.traffic.dest| && s.traffic.dest[i] == ToCall(c);
    assert RouteOk(s, i);
    assert ChannelOk(s, c);
  }

  /** A call ends as its replies say: with a frame only if that very frame was its reply, with a lost
      connection only if a teardown failed it, and never with either of these, or unconnected, against the
      reply it was sent. A reply can be missed only by timing out or by a failed write. */
  lemma CallsEndAsTold(auto: bool, decode: string -> Option<Frame>, s: State, c: int)
    requires Reachable(Bridge(auto, decode), s) && s.counter < COUNTER_SPAN
    requires c in s.calls && (s.calls[c].at.Leaving? || s.calls[c].at.Done?)
    ensures var o, sent := s.calls[c].at.o, s.calls[c].sent;
      && (o.GotFrame? ==> sent == [FrameReply(o.f)])
      && (o.ConnectionLost? ==> sent == [Closed])
      && (o.NotConnected? ==> sent == [])
      && (forall f :: sent == [FrameReply(f)] ==> o in {GotFrame(f), TimedOut, WriteFailed})
      && (sent == [Closed] ==> o in {ConnectionLost, TimedOut, WriteFailed})
  {
    BridgeKeeps(auto, decode, s);
    assert ResultOk(s, c);
  }

  /** What each way to end comes from; and that a call which has ended stays ended that way. */
  lemma OutcomesHaveCauses(p: Rules, s: State, l: Label, c: int)
    requires Next(p, s, l).Some? && c in s.calls
    ensures var s' := Next(p, s, l).value;
      && c in s'.calls
      && (Ended(s.calls[c].at) ==> Ended(s'.calls[c].at) && s'.calls[c].at.o == s.calls[c].at.o)
      && (!Ended(s.calls[c].at) && Ended(s'.calls[c].at) ==>
            match s'.calls[c].at.o
            case GotFrame(f) => l == Receive(c) && s.calls[c].slot == Some(FrameReply(f))
            case ConnectionLost => l == Receive(c) && s.calls[c].slot == Some(Closed)
            case TimedOut => l == Timeout(c)
            case WriteFailed => l == WriteDone(c, false)
            case NotConnected => l == ReadConn(c) && s.conn == None)
  {
    hide Routed;
    if l.ReadFrame? && s.serve.Reading? && p.read(l.raw).Some? { RoutedLeavesCalls(s, s.serve.k, p.read(l.raw).value); }
  }

  lemma RoutedLeavesCalls(s: State, k: int, f: Incoming)
    ensures Routed(s, k, f).calls == s.calls
  {}

  /** And an answered call returns its answer: its own next two steps end it with the reply in its channel
      and take its entry out of the map. */
  lemma AnsweredCallReturns(p: Rules, s: State, c: int, k: int)
    requires WaitsOn(s, c, k) && s.calls[c].slot.Some?
    ensures var r := s.calls[c].slot.value;
      var s' := Steps(p, s, [Receive(c), Unregister(c)]);
      && s'.Some? && c in s'.value.calls
      && s'.value.calls[c].at == Done(if r.FrameReply? then GotFrame(r.f) else ConnectionLost)
      && s'.value.pending == s.pending - {s.calls[c].id}
  {
    hide CallNext, BeginNext, ConnectNext, ActivateNext, ReadNext, ClearNext;
    var s1 := WaitNext(s, c, Receive(c)).value;
    var s2 := WaitNext(s1, c, Unregister(c)).value;
    assert Steps(p, s2, []) == Some(s2);
    StepsOn(p, s1, Unregister(c), s2, []);
    assert [Unregister(c)] + [] == [Unregister(c)];
    StepsOn(p, s, Receive(c), s1, [Unregister(c)]);
    assert [Receive(c)] + [Unregister(c)] == [Receive(c), Unregister(c)];
  }

  /** A call whose write fails, or whose time is up, leaves at once with just that outcome. */
  lemma FailuresEndCalls(p: Rules, s: State, c: int, k: int)
    requires c in s.calls
    ensures s.calls[c].at == Writing(k) ==>
      Next(p, s, WriteDone(c, false)) == Some(Move(s.(writer := None), c, Leaving(WriteFailed)))
    ensures s.calls[c].at == Writing(k) && k !in s.closed ==>
      Next(p, s, WriteDone(c, true)) == Some(Move(s.(writer := None), c, Waiting(k)))
    ensures s.calls[c].at == Waiting(k) ==> Next(p, s, Timeout(c)) == Some(Move(s, c, Leaving(TimedOut)))
  {
    hide Move, BeginNext, ConnectNext, ActivateNext, ReadNext, ClearNext;
  }

  /** What Serve makes of failures: before the handshake is complete they close the connection, a failed
      automatic message begins its teardown, and a frame that cannot be decoded is passed over. */
  lemma ServeAfterFailures(p: Rules, s: State, k: int, raw: string)
    ensures var closed := s.(serve := Down, closed := s.closed + {k});
      && (s.serve == Dialed(k) ==> Next(p, s, ChallengeFailed) == Some(closed))
      && (s.serve == ConnectWriting(k) ==> Next(p, s, ConnectWritten(false)) == Some(closed))
      && (s.serve == Handshaking(k) ==> Next(p, s, HandshakeDone(false)) == Some(closed))
      && (s.serve == AutoWriting(k) ==> Next(p, s, AutoWritten(false)) == Some(s.(serve := Returning(k))))
      && (s.serve == Reading(k) && p.read(raw).None? ==> Next(p, s, ReadFrame(raw)) == Some(s))
  {
    hide CallNext, WaitNext, BeginNext, ClearNext, Routed;
  }

  /** A call that asks for the connection gets the active one, and goes on to register unless there is none. */
  lemma ConnectsIfActive(p: Rules, s: State, c: int)
    requires c in s.calls && s.calls[c].at.Fresh?
    ensures var s' := Next(p, s, ReadConn(c));
      && s'.Some? && c in s'.value.calls
      && (s.conn.Some? ==> s'.value.calls[c].at == Connected(s.conn.value))
      && (s.conn.None? ==> s'.value.calls[c].at == Done(NotConnected))
  {
    hide WaitNext, BeginNext, ConnectNext, ActivateNext, ReadNext, ClearNext;
  }

  /** Conservation: every frame the loop decoded went to exactly one place, no two frames to the same
      place, and a handler was started for nothing else. */
  lemma FramesAreConserved(auto: bool, decode: string -> Option<Frame>, s: State)
    requires Reachable(Bridge(auto, decode), s) && s.counter < COUNTER_SPAN
    ensures |s.traffic.dest| == |s.traffic.read|
    ensures forall i, j :: 0 <= i < j < |s.traffic.dest| ==> s.traffic.dest[i] != s.traffic.dest[j]
    ensures forall i :: 0 <= i < |s.traffic.dest| ==> RouteOk(s, i)
    ensures forall h :: 0 <= h < |s.traffic.handled| ==> ToHandler(h) in s.traffic.dest
  {
    BridgeKeeps(auto, decode, s);
  }

  /** The gate: whatever connection is active has finished its handshake and has not been closed by
      Serve, and a call writes only on connections that finished theirs. */
  lemma ActiveConnectionIsHandshaken(auto: bool, decode: string -> Option<Frame>, s: State)
    requires Reachable(Bridge(auto, decode), s)
    ensures s.conn.Some? ==> s.conn.value in s.handshaken && s.conn.value !in s.closed
    ensures forall c :: c in s.calls && s.calls[c].at.Writing? ==> s.calls[c].at.k in s.handshaken
  {
    BridgeKeeps(auto, decode, s);
    forall c | c in s.calls && s.calls[c].at.Writing? ensures s.calls[c].at.k in s.handshaken {
      assert CallGateOk(s, c);
    }
  }

  predicate ServeWrites(s: State, k: int) { s.serve == ConnectWriting(k) || s.serve == AutoWriting(k) }

  predicate CallWrites(s: State, c: int, k: int) { c in s.calls && s.calls[c].at == Writing(k) }

  /** Two goroutines in the middle of a write to the same connection. */
  ghost predicate WritesOverlap(s: State) {
    || (exists c, d, k :: c != d && CallWrites(s, c, k) && CallWrites(s, d, k))
    || (exists c, k :: CallWrites(s, c, k) && ServeWrites(s, k))
  }

  lemma NoOverlapWithoutAuto(decode: string -> Option<Frame>, s: State)
    requires Reachable(Bridge(false, decode), s)
    ensures !WritesOverlap(s)
  {
    BridgeKeeps(false, decode, s);
    forall c, k | CallWrites(s, c, k) ensures s.writer == Some(c) && k in s.handshaken { assert CallGateOk(s, c); }
  }

  lemma PlayOn(p: Rules, run: seq<Label>, s: State, l: Label)
    requires Play(p, run) == Some(s)
    ensures Play(p, run + [l]) == Next(p, s, l)
  {
    assert (run + [l])[..|run|] == run;
  }

  /** The way to a first connection whose handshake is complete. */
  lemma Opening(p: Rules) returns (run: seq<Label>, s: State)
    ensures Play(p, run) == Some(s) && s.serve == Opened(0) && s.counter == 1 && s.conns == 1
    ensures s.calls == map[] && s.pending == map[] && s.writer == None && s.closed == {} && s.torn == {}
  {
    run, s := [], INIT;
    run, s := Step(p, run, s, Dial);
    run, s := Step(p, run, s, StartConnect);
    run, s := Step(p, run, s, ConnectWritten(true));
    run, s := Step(p, run, s, HandshakeDone(true));
  }

  /** A run into the automatic message's write while a call writes to the same connection: the
      automatic message is written without the write lock. */
  lemma AutoOverlaps(decode: string -> Option<Frame>) returns (s: State)
    ensures Reachable(Bridge(true, decode), s) && WritesOverlap(s)
  {
    var p := Bridge(true, decode);
    var run;
    run, s := Opening(p);
    run, s := Step(p, run, s, SetActive);
    run, s := Step(p, run, s, AutoStart);
    run, s := SevenConnects(p, run, s);
    run, s := SevenWrites(p, run, s);
    assert CallWrites(s, 7, 0) && ServeWrites(s, 0);
  }

  lemma Step(p: Rules, run: seq<Label>, s: State, l: Label) returns (run': seq<Label>, s': State)
    requires Play(p, run) == Some(s) && Next(p, s, l).Some?
    ensures Play(p, run') == Some(s') && Next(p, s, l) == Some(s')
  {
    PlayOn(p, run, s, l);
    run', s' := run + [l], Next(p, s, l).value;
  }

  /** Two writers on one connection can meet exactly when the bridge is configured to send a message on
      connect; otherwise never, in any run. */
  lemma WritersMeetIffAuto(auto: bool, decode: string -> Option<Frame>)
    ensures (exists s :: Reachable(Bridge(auto, decode), s) && WritesOverlap(s)) <==> auto
  {
    if auto {
      var s := AutoOverlaps(decode);
    } else {
      forall s | Reachable(Bridge(auto, decode), s) ensures !WritesOverlap(s) { NoOverlapWithoutAuto(decode, s); }
    }
  }

  /** Call 7 as it stands in the runs below. */
  ghost predicate Seven(s: State, at: CallAt, late: bool) {
    7 in s.calls && s.calls[7].at == at && s.calls[7].slot.None? && s.calls[7].late == late
  }

  lemma SevenConnects(p: Rules, run: seq<Label>, s: State) returns (run': seq<Label>, s': State)
    requires Play(p, run) == Some(s) && s.conn == Some(0) && 7 !in s.calls && s.pending == map[]
    ensures Play(p, run') == Some(s') && Seven(s', Connected(0), false)
    ensures s' == s.(counter := s'.counter, calls := s'.calls)
  {
    run', s' := Step(p, run, s, NewCall(7, Send));
    run', s' := Step(p, run', s', ReadConn(7));
  }

  lemma SevenWrites(p: Rules, run: seq<Label>, s: State) returns (run': seq<Label>, s': State)
    requires Play(p, run) == Some(s) && Seven(s, Connected(0), false) && s.writer == None
    ensures Play(p, run') == Some(s') && Seven(s', Writing(0), 0 in s.torn)
    ensures s' == s.(pending := s'.pending, calls := s'.calls, writer := Some(7))
  {
    run', s' := Step(p, run, s, Register(7));
    run', s' := Step(p, run', s', LockWrite(7));
  }

  /** A run that strands a call: it reads the connection, the connection is torn down, and only then does
      the call register and write, before the socket is closed. Nobody will answer or fail it; only its
      own timeout ends it. */
  lemma StrandedHappens(decode: string -> Option<Frame>) returns (s: State)
    ensures Reachable(Bridge(false, decode), s) && s.serve == Down && s.conn == None && s.closed == {0}
    ensures WaitsOn(s, 7, 0) && s.calls[7].late && s.calls[7].slot.None? && !InHand(s, 7) && !InLeft(s, 7)
  {
    var p := Bridge(false, decode);
    var run;
    run, s := Opening(p);
    run, s := Step(p, run, s, SetActive);
    run, s := SevenConnects(p, run, s);
    run, s := SwapsAway(p, run, s);
    run, s := SevenWrites(p, run, s);
    hide Next;
    run, s := SevenWaits(p, run, s);
  }

  lemma SwapsAway(p: Rules, run: seq<Label>, s: State) returns (run': seq<Label>, s': State)
    requires Play(p, run) == Some(s) && s.serve == Reading(0) && s.pending == map[]
    ensures Play(p, run') == Some(s')
    ensures s' == s.(conn := None, serve := Clearing(0, map[]), torn := s.torn + {0})
  {
    run', s' := Step(p, run, s, Return);
    run', s' := Step(p, run', s', Swap);
    assert s'.swapped == s.swapped;
  }

  lemma Closes(p: Rules, run: seq<Label>, s: State) returns (run': seq<Label>, s': State)
    requires Play(p, run) == Some(s) && s.serve == Clearing(0, map[])
    ensures Play(p, run') == Some(s') && s' == s.(serve := Down, closed := s.closed + {0})
  {
    hide CallNext, WaitNext, BeginNext, ConnectNext, ActivateNext, ReadNext;
    run', s' := Step(p, run, s, ClearDone);
    run', s' := Step(p, run', s', CloseConn);
  }

  lemma SevenWaits(p: Rules, run: seq<Label>, s: State) returns (run': seq<Label>, s': State)
    requires Play(p, run) == Some(s) && Seven(s, Writing(0), true) && s.serve == Clearing(0, map[])
    requires s.closed == {} && s.conn == None
    ensures Play(p, run') == Some(s') && Seven(s', Waiting(0), true)
    ensures s'.serve == Down && s'.conn == None && s'.closed == {0}
  {
    hide ConnectNext, ActivateNext, ReadNext, ClearNext, WaitNext, BeginNext;
    run', s' := Step(p, run, s, WriteDone(7, true));
    run', s' := Closes(p, run', s');
  }

  // ----- answers find their way -----

  /** A response carrying the id of a call in the map is handed to that call, whatever else it contains. */
  lemma AnswersReachTheirCall(auto: bool, decode: string -> Option<Frame>, s: State, c: int, raw: string)
    requires Reachable(Bridge(auto, decode), s) && s.counter < COUNTER_SPAN && s.serve.Reading? && InMap(s, c)
    requires decode(raw).Some? && GetString(decode(raw).value, "type") == "res"
    requires GetString(decode(raw).value, "id") == s.calls[c].id
    ensures var s' := Next(Bridge(auto, decode), s, ReadFrame(raw));
      && s'.Some? && InHand(s'.value, c) && s'.value.serve.f.frame == decode(raw).value
      && s'.value.traffic.handled == s.traffic.handled
  {
    hide CallNext, WaitNext, BeginNext, ConnectNext, ActivateNext, ClearNext;
    BridgeKeeps(auto, decode, s);
    assert IdentityOk(Bridge(auto, decode), s, c);
    RequestIdNotEmpty(s.calls[c].kind, s.calls[c].step);
  }

  /** No request Serve writes itself shares its id with a call, although the automatic message's id has
      the form of a send's; so its answer resolves nobody and goes to a handler. */
  lemma ServeIdsApart(auto: bool, decode: string -> Option<Frame>, s: State, kind: Kind, n: nat)
    requires Reachable(Bridge(auto, decode), s) && s.counter < COUNTER_SPAN && (kind, n) in s.serveIds
    ensures forall c :: c in s.calls ==> s.calls[c].id != RequestId(kind, n)
    ensures RequestId(kind, n) !in s.pending
  {
    BridgeKeeps(auto, decode, s);
    assert ServeIdOk(s, (kind, n));
    forall c | c in s.calls ensures s.calls[c].id != RequestId(kind, n) {
      assert IdentityOk(Bridge(auto, decode), s, c);
      RequestIdsDistinct(s.calls[c].kind, s.calls[c].step, kind, n);
    }
    forall id | id in s.pending ensures id != RequestId(kind, n) { assert PendingOk(s, id); }
  }

  lemma ServeAnswersAreHandled(auto: bool, decode: string -> Option<Frame>, s: State, kind: Kind, n: nat, raw: string)
    requires Reachable(Bridge(auto, decode), s) && s.counter < COUNTER_SPAN && (kind, n) in s.serveIds
    requires s.serve.Reading?
    requires decode(raw).Some? && GetString(decode(raw).value, "id") == RequestId(kind, n)
    ensures var s' := Next(Bridge(auto, decode), s, ReadFrame(raw));
      && s'.Some? && s'.value.calls == s.calls && s'.value.pending == s.pending
      && |s'.value.traffic.handled| == |s.traffic.handled| + 1
  {
    ServeIdsApart(auto, decode, s, kind, n);
  }

  /** The frame is in the resolver's hand and then in its call's channel. */
  lemma HandedOver(s: State, k: int, f: Incoming) returns (s2: State)
    requires Owned(s) && s.serve == Reading(k) && f.isRes && f.id != "" && f.id in s.pending
    ensures var c := s.pending[f.id];
      && c in s.calls && Routed(s, k, f).serve == Handing(k, c, f) && c in Routed(s, k, f).calls
      && s2 == TrySend(Routed(s, k, f), c, FrameReply(f)).(serve := Reading(k))
      && s2.pending == s.pending - {f.id} && s2.calls == s.calls[c := Answered(s.calls[c], f)]
  {
    assert PendingOk(s, f.id);
    assert ChannelOk(s, s.pending[f.id]);
    assert [] + [FrameReply(f)] == [FrameReply(f)];
    s2 := TrySend(Routed(s, k, f), s.pending[f.id], FrameReply(f)).(serve := Reading(k));
  }

  function Answered(x: Call, f: Incoming): Call { x.(slot := Some(FrameReply(f)), sent := [FrameReply(f)]) }

  lemma ReadSteps(p: Rules, s: State, raw: string)
    ensures s.serve.Reading? && p.read(raw).Some? ==>
      Next(p, s, ReadFrame(raw)) == Some(Routed(s, s.serve.k, p.read(raw).value))
    ensures s.serve.Handing? && s.serve.c in s.calls ==>
      Next(p, s, HandOver) == Some(TrySend(s, s.serve.c, FrameReply(s.serve.f)).(serve := Reading(s.serve.k)))
  {
    hide CallNext, WaitNext, BeginNext, ConnectNext, ActivateNext, ClearNext, Routed, TrySend;
  }

  /** Reading and handing over without interruption is what the client's resolvePending does: a frame is
      consumed exactly when it is a response whose id is in the map, and then its entry is gone, its
      channel holds the frame and no other call has changed. */
  lemma ResolvedInTwoSteps(auto: bool, decode: string -> Option<Frame>, s: State, raw: string)
    returns (s1: State, s2: State)
    requires Reachable(Bridge(auto, decode), s) && s.counter < COUNTER_SPAN && s.serve.Reading? && decode(raw).Some?
    ensures Next(Bridge(auto, decode), s, ReadFrame(raw)) == Some(s1)
    ensures var f := Bridge(auto, decode).read(raw).value;
      if f.isRes && f.id != "" && f.id in s.pending then
        && Next(Bridge(auto, decode), s1, HandOver) == Some(s2) && s2.serve == s.serve && s.pending[f.id] in s.calls
        && s2.pending == s.pending - {f.id}
        && s2.calls == s.calls[s.pending[f.id] := Answered(s.calls[s.pending[f.id]], f)]
      else s1.serve == s.serve && s1.pending == s.pending && s1.calls == s.calls
  {
    BridgeKeeps(auto, decode, s);
    var f := Bridge(auto, decode).read(raw).value;
    s1 := Routed(s, s.serve.k, f);
    s2 := s1;
    ReadSteps(Bridge(auto, decode), s, raw);
    ReadSteps(Bridge(auto, decode), s1, raw);
    hide Next, TrySend, Owned, Identified, Gated, Conserved, Tended, UniqueIds, GetString;
    if f.isRes && f.id != "" && f.id in s.pending {
      s2 := HandedOver(s, s.serve.k, f);
    }
  }

  // ----- progress of a teardown -----

  function Steps(p: Rules, s: State, run: seq<Label>): Option<State>
    decreases |run|
  {
    if run == [] then Some(s)
    else
      match Next(p, s, run[0])
      case None => None
      case Some(s1) => Steps(p, s1, run[1..])
  }

  /** Steps of a teardown only. */
  predicate Clears(run: seq<Label>) {
    forall i :: 0 <= i < |run| ==> run[i].Swap? || run[i].Notify? || run[i].ClearDone?
  }

  function Notified(x: Call): Call { x.(slot := Some(Closed), sent := [Closed]) }

  lemma NotifyStep(p: Rules, s: State, id: string) returns (s1: State)
    requires Owned(s) && s.serve.Clearing? && id in s.serve.left
    ensures Next(p, s, Notify(id)) == Some(s1) && Owned(s1)
    ensures var c := s.serve.left[id];
      && c in s.calls && InLeft(s, c) && s1.serve == Clearing(s.serve.k, s.serve.left - {id})
      && s1 == s.(serve := s1.serve, calls := s.calls[c := Notified(s.calls[c])])
      && forall d :: d in s.calls ==> (InLeft(s1, d) <==> InLeft(s, d) && d != c)
  {
    assert LeftOk(s, id) && ChannelOk(s, s.serve.left[id]);
    NotifyKeepsOwned(s, id);
    s1 := ClearNext(s, Notify(id)).value;
  }

  lemma StepsOn(p: Rules, s: State, l: Label, s1: State, rest: seq<Label>)
    requires Next(p, s, l) == Some(s1)
    ensures Steps(p, s, [l] + rest) == Steps(p, s1, rest)
  {
    assert ([l] + rest)[1..] == rest;
  }

  /** Notifying goes through to its end, one untouched channel at a time. */
  lemma NotifyFinishes(p: Rules, s: State) returns (run: seq<Label>, s': State)
    requires Owned(s) && s.serve.Clearing?
    ensures Clears(run) && Steps(p, s, run) == Some(s') && s' == s.(serve := Closing(s.serve.k), calls := s'.calls)
    ensures s'.calls.Keys == s.calls.Keys
    ensures forall c :: c in s.calls ==> s'.calls[c] == if InLeft(s, c) then Notified(s.calls[c]) else s.calls[c]
    decreases |s.serve.left|
  {
    var left := s.serve.left;
    if left == map[] {
      s' := s.(serve := Closing(s.serve.k));
      assert Steps(p, s', []) == Some(s');
      StepsOn(p, s, ClearDone, s', []);
      run := [ClearDone] + [];
    } else {
      hide Owned, Next, InLeft, Steps;
      var id :| id in left;
      var s1 := NotifyStep(p, s, id);
      assert |left - {id}| < |left| by { assert (left - {id}).Keys == left.Keys - {id}; }
      var rest;
      rest, s' := NotifyFinishes(p, s1);
      StepsOn(p, s, Notify(id), s1, rest);
      run := [Notify(id)] + rest;
    }
  }

  lemma SwapStep(p: Rules, s: State) returns (s1: State)
    requires Owned(s) && s.serve.Returning?
    ensures Next(p, s, Swap) == Some(s1) && Owned(s1)
    ensures s1.serve.Clearing? && s1.serve.k == s.serve.k && s1.conn == None && s1.pending == map[]
    ensures s1.calls == s.calls
    ensures forall c :: c in s.calls ==> (InLeft(s1, c) <==> InMap(s, c))
  {
    SwapKeepsOwned(s);
    s1 := ClearNext(s, Swap).value;
  }

  /** Teardown never blocks: from every state a run can be in when Serve begins it, the steps of the
      teardown itself lead to its end with the connection gone and the map empty, exactly the calls that were in the map
      failed, and every other call untouched. */
  lemma TeardownFinishes(auto: bool, decode: string -> Option<Frame>, s: State) returns (run: seq<Label>, s': State)
    requires Reachable(Bridge(auto, decode), s) && s.counter < COUNTER_SPAN && s.serve.Returning?
    ensures Clears(run) && Steps(Bridge(auto, decode), s, run) == Some(s')
    ensures s'.serve == Closing(s.serve.k) && s'.conn == None && s'.pending == map[] && s'.calls.Keys == s.calls.Keys
    ensures forall c :: c in s.calls ==> s'.calls[c] == if InMap(s, c) then Notified(s.calls[c]) else s.calls[c]
  {
    var p := Bridge(auto, decode);
    BridgeKeeps(auto, decode, s);
    hide Next, Steps, InLeft;
    var s1 := SwapStep(p, s);
    hide Owned;
    var rest;
    rest, s' := NotifyFinishes(p, s1);
    StepsOn(p, s, Swap, s1, rest);
    run := [Swap] + rest;
  }
}
