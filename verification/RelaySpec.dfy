/**
 The relay server as a state and its event handlers. A handler that awaits a
 Socket.IO room operation is split there: the part before the await leaves a
 phase in the socket's session, and a later event runs the rest. Between the
 two any other event may happen.

 Transports are an environment: events may lower `connected` and `open` and
 change `writable` at any time. Disconnecting a socket removes it and runs its
 disconnect handler in the same turn.
 */
module RelaySpec {
  import opened Options
  import opened RelayTypes
  import opened ManagerSpec
  import opened Mails

  /** The transport event a socket's armed listener waits for. */
  datatype Phase = Draining | Readying

  datatype Conn = Conn(connected: bool, open: bool, writable: bool)

  /** What a join handler answers its client. */
  datatype JoinAck = Answered(result: JoinResult) | AlreadyJoining | AtCapacity | Unable

  /**
   What the handler still has to do after its await. `Departing` holds the answer for a join that has already
   happened; `Retreating` holds the answer for one that failed. A client that asked for no acknowledgement gets none.
   */
  datatype Joining =
    | Idle
    | Entering(id: ChannelId, role: ClientType, offer: KeyOffer, switching: bool, wantsAck: bool)
    | Departing(id: ChannelId, answer: JoinResult, wantsAck: bool)
    | Retreating(ack: JoinAck, wantsAck: bool)

  datatype Session = Session(ip: Ip, current: Option<ChannelId>, joining: Joining)

  datatype Relay = Relay(
    m: Manager,
    listeners: map<SocketId, Phase>,
    sockets: map<SocketId, Conn>,
    sessions: map<SocketId, Session>,
    mail: Mail,
    clock: nat)
  {
    /** Connected over an engine that still accepts packets. */
    predicate Alive(s: SocketId) {
      s in sockets && sockets[s].connected && sockets[s].open
    }

    /** A write to this socket can be handed to its transport now, and its completion will be noticed. */
    predicate CanArm(s: SocketId) {
      Alive(s) && sockets[s].writable && s !in listeners
    }

    function Receivable(): set<SocketId> {
      set s | s in sockets && CanArm(s)
    }

    function AliveSockets(): set<SocketId> {
      set s | s in sockets && Alive(s)
    }

    function WithSession(s: SocketId, session: Session): Relay {
      this.(sessions := sessions[s := session])
    }
  }

  function EmptyRelay(limits: Limits): Relay {
    Relay(EmptyManager(limits), map[], map[], map[], NO_MAIL, 0)
  }

  // ---------- What is handed to sockets ----------

  /** Post what an operation that took the manager from `before` to `after` settled on `ref` for `to`. */
  function Post(r: Relay, before: Manager, after: Manager, to: SocketId, ref: nat, role: ClientType,
                standing: Standing): (posted: Relay)
    ensures posted == r.(mail := posted.mail)
  {
    if Settles(before, after, ref)
    then r.(mail := Send(r.mail, Parcel(to, ref, role, |Log(before, ref)|, |Log(after, ref)|, standing)))
    else r
  }

  predicate Settles(before: Manager, after: Manager, ref: nat) {
    |Log(before, ref)| < |Log(after, ref)|
  }

  // ---------- The direct-delivery loop ----------

  function ReleaseDelivery(r: Relay, s: SocketId): Relay
    requires r.m.RefsOk()
  {
    r.(listeners := r.listeners - {s}, m := Release(r.m, s))
  }

  function Arm(r: Relay, s: SocketId): Relay {
    r.(listeners := r.listeners[s := Draining])
  }

  /** `disconnect(true)`: the socket is gone and its disconnect handler has run. */
  function Disconnect(r: Relay, s: SocketId, now: nat): (after: Relay)
    requires r.m.RefsOk()
    ensures after.m.RefsOk()
  {
    if s !in r.sockets then r
    else
      var gone := ReleaseDelivery(r.(sockets := r.sockets - {s}), s);
      if s in r.sessions && r.sessions[s].current.Some?
      then gone.(m := Leave(gone.m, s, r.sessions[s].current.value, now).0)
      else gone
  }

  function OnDrain(r: Relay, s: SocketId): Relay {
    if s in r.listeners && r.listeners[s] == Draining then r.(listeners := r.listeners[s := Readying]) else r
  }

  /** Arm the next drain, then move the oldest waiting message into the reservation. */
  function WriteNext(r: Relay, s: SocketId, now: nat): (after: Relay)
    requires r.m.RefsOk()
    ensures after.m.RefsOk()
  {
    if !r.CanArm(s) then Disconnect(r.(m := Release(r.m, s)), s, now)
    else
      var (m', next) := Advance(r.m, s);
      var armed := Arm(r, s).(m := m');
      if next.None? then ReleaseDelivery(armed, s)
      else
        var ref := r.m.deliveries[s].channel;
        Post(armed, r.m, m', s, ref, r.m.store[ref].participants[s], Reached)
  }

  function OnReady(r: Relay, s: SocketId, now: nat): (after: Relay)
    requires r.m.RefsOk()
    ensures after.m.RefsOk()
  {
    if s !in r.listeners || r.listeners[s] != Readying then r
    else
      var fired := r.(listeners := r.listeners - {s});
      if !r.Alive(s) then fired.(m := Release(r.m, s))
      else if !r.sockets[s].writable then r
      else WriteNext(fired, s, now)
  }

  // ---------- message ----------

  datatype Ack = Accepted(buffered: bool) | Failed(error: RouteError) | TransportUnavailable | Ignored

  /** Disconnect a counterparty that is present, could not be written to, and has no write outstanding. */
  function DropSlow(r: Relay, slow: Option<SocketId>, now: nat): (after: Relay)
    requires r.m.RefsOk()
    ensures after.m.RefsOk()
  {
    if slow.Some? && slow.value !in r.m.deliveries then Disconnect(r, slow.value, now) else r
  }

  function HandOver(r: Relay, target: SocketId, now: nat): (res: (Relay, Ack))
    requires r.m.RefsOk()
    ensures res.0.m.RefsOk()
  {
    if r.CanArm(target) then (Arm(r, target), Accepted(false))
    else (Disconnect(ReleaseDelivery(r, target), target, now), TransportUnavailable)
  }

  ghost function OnMessage(r: Relay, s: SocketId, id: ChannelId, data: Payload, now: nat)
    : (res: (Relay, Ack))
    requires r.m.RefsOk()
    ensures res.0.m.RefsOk()
  {
    if s !in r.sockets || s !in r.sessions then (r, Ignored)
    else
      var (m', result) := Route(r.m, id, s, data, r.sessions[s].ip, r.Receivable(), now);
      var routed := DropSlow(r.(m := m'), result.backpressured, now);
      if result.error.Some? then (routed, Failed(result.error.value))
      else if result.target.Some? then
        var target := result.target.value;
        var (handed, ack) := HandOver(routed, target, now);
        (if ack == Accepted(false)
         then Post(handed, r.m, m', target, r.m.channels[id], Other(data.clientType), Reached) else handed,
         ack)
      else (routed, Accepted(result.buffered))
  }

  // ---------- join_channel ----------

  function LiveIds(m: Manager): set<ChannelId>
    requires m.RefsOk()
  {
    set id | id in m.channels && !m.At(id).terminated
  }

  /** The first half of the handler, up to entering the room. */
  ghost function OnJoin(r: Relay, s: SocketId, id: ChannelId, role: ClientType, offer: KeyOffer,
                        wantsAck: bool, now: nat): (after: Relay)
    requires r.m.RefsOk()
    ensures after.m.RefsOk()
  {
    if s !in r.sockets || s !in r.sessions || !r.sessions[s].joining.Idle? then r
    else if id !in r.m.channels && |LiveIds(r.m)| >= r.m.limits.maxActiveChannels then r
    else
      var session := r.sessions[s];
      if session.current != Some(id)
      then r.WithSession(s, session.(joining := Entering(id, role, offer, session.current.Some?, wantsAck)))
      else Seat(r, s, id, role, offer, false, false, wantsAck, now)
  }

  /** The manager's answer to the join that `Seat` performs. */
  ghost function SeatResult(r: Relay, s: SocketId, id: ChannelId, role: ClientType, offer: KeyOffer, now: nat)
    : (res: (Manager, JoinResult))
    requires r.m.RefsOk() && s in r.sessions
    ensures res.0.RefsOk()
  {
    Join(r.m, id, s, role, offer, Some(r.sessions[s].ip), r.sockets.Keys, now)
  }

  predicate Seated(result: JoinResult) {
    result.Joined? && !result.terminated
  }

  /** The channel object a join for `id` is about. */
  function ObjectFor(m: Manager, id: ChannelId): nat {
    if id in m.channels then m.channels[id] else |m.store|
  }

  /** An acknowledgement that was asked for reaches a live socket; one that follows another await is only due. */
  function BatchStanding(r: Relay, s: SocketId, moves: bool, wantsAck: bool): Standing {
    if !r.Alive(s) || !wantsAck then Lost else if moves then Waiting else Reached
  }

  /**
   The synchronous middle of the handler: join the manager, then leave the previous channel. Without a previous
   channel the answer, and with it the batch that waited for the role, goes out at once.
   */
  ghost function Seat(r: Relay, s: SocketId, id: ChannelId, role: ClientType, offer: KeyOffer,
                      switching: bool, inRoom: bool, wantsAck: bool, now: nat): (after: Relay)
    requires r.m.RefsOk() && s in r.sessions
    ensures after.m.RefsOk()
  {
    var session := r.sessions[s];
    var (m', result) := SeatResult(r, s, id, role, offer, now);
    if !Seated(result) then
      r.(m := m').WithSession(s, session.(joining := if inRoom then Retreating(Answered(result), wantsAck) else Idle))
    else
      var moves := switching && session.current.Some?;
      var standing := BatchStanding(r, s, moves, wantsAck);
      var ref := ObjectFor(r.m, id);
      var posted := Post(r, r.m, m', s, ref, role, standing);
      if moves then
        posted.(m := Leave(m', s, session.current.value, now).0)
              .WithSession(s, session.(joining := Departing(id, result, wantsAck)))
      else posted.(m := m').WithSession(s, session.(current := Some(id), joining := Idle))
  }

  /** The answer given in that turn, if it is not given after a later await. */
  ghost function SeatAck(r: Relay, s: SocketId, id: ChannelId, role: ClientType, offer: KeyOffer,
                         switching: bool, inRoom: bool, wantsAck: bool, now: nat): (ack: Option<JoinAck>)
    requires r.m.RefsOk() && s in r.sessions
    ensures !wantsAck ==> ack.None?
  {
    var result := SeatResult(r, s, id, role, offer, now).1;
    if !wantsAck || (if Seated(result) then switching && r.sessions[s].current.Some? else inRoom) then None
    else Some(Answered(result))
  }

  ghost function OnJoinAck(r: Relay, s: SocketId, id: ChannelId, role: ClientType, offer: KeyOffer, wantsAck: bool,
                           now: nat): Option<JoinAck>
    requires r.m.RefsOk()
  {
    if s !in r.sockets || s !in r.sessions || !wantsAck then None
    else if !r.sessions[s].joining.Idle? then Some(AlreadyJoining)
    else if id !in r.m.channels && |LiveIds(r.m)| >= r.m.limits.maxActiveChannels then Some(AtCapacity)
    else if r.sessions[s].current != Some(id) then None
    else SeatAck(r, s, id, role, offer, false, false, wantsAck, now)
  }

  /** The await on entering the room settles. */
  ghost function OnRoomEntered(r: Relay, s: SocketId, ok: bool, now: nat): (after: Relay)
    requires r.m.RefsOk()
    ensures after.m.RefsOk()
  {
    if s !in r.sessions || !r.sessions[s].joining.Entering? then r
    else
      var session := r.sessions[s];
      var j := session.joining;
      if ok then Seat(r, s, j.id, j.role, j.offer, j.switching, true, j.wantsAck, now)
      else r.WithSession(s, session.(joining := Idle))
  }

  ghost function OnRoomEnteredAck(r: Relay, s: SocketId, ok: bool, now: nat): Option<JoinAck>
    requires r.m.RefsOk()
  {
    if s !in r.sessions || !r.sessions[s].joining.Entering? then None
    else
      var j := r.sessions[s].joining;
      if ok then SeatAck(r, s, j.id, j.role, j.offer, j.switching, true, j.wantsAck, now)
      else if j.wantsAck then Some(Unable) else None
  }

  /** The parcel a late answer carries goes out with it, or is lost with it. */
  function Resolve(r: Relay, s: SocketId, sent: bool): (after: Relay)
    ensures after == r.(mail := after.mail)
  {
    if s in r.mail.owed then r.(mail := Settle(r.mail, r.mail.owed[s], sent)) else r
  }

  /** The await on leaving a room settles: either the previous room, or the one just backed out of. */
  function OnRoomLeft(r: Relay, s: SocketId, ok: bool, now: nat): (after: Relay)
    requires r.m.RefsOk()
    ensures after.m.RefsOk()
  {
    if s !in r.sessions then r
    else
      var session := r.sessions[s];
      match session.joining
      case Departing(id, _, wantsAck) =>
        if ok then Resolve(r, s, r.Alive(s)).WithSession(s, session.(current := Some(id), joining := Idle))
        else Resolve(r, s, false).(m := Leave(r.m, s, id, now).0)
                                     .WithSession(s, session.(joining := Retreating(Unable, wantsAck)))
      case Retreating(ack, wantsAck) =>
        r.WithSession(s, session.(joining := if ok || ack == Unable then Idle else Retreating(Unable, wantsAck)))
      case _ => r
  }

  function OnRoomLeftAck(r: Relay, s: SocketId, ok: bool): Option<JoinAck> {
    if s !in r.sessions then None
    else
      match r.sessions[s].joining
      case Departing(_, answer, wantsAck) => if ok && wantsAck then Some(Answered(answer)) else None
      case Retreating(ack, wantsAck) => if (ok || ack == Unable) && wantsAck then Some(ack) else None
      case _ => None
  }

  // ---------- leave_channel and close_channel ----------

  function Forget(r: Relay, s: SocketId, id: ChannelId): Relay
    requires s in r.sessions
  {
    if r.sessions[s].current == Some(id) then r.WithSession(s, r.sessions[s].(current := None)) else r
  }

  function Requested(r: Relay, s: SocketId, id: Option<ChannelId>): Option<ChannelId>
    requires s in r.sessions
  {
    if id.Some? then id else r.sessions[s].current
  }

  function OnLeave(r: Relay, s: SocketId, requested: Option<ChannelId>, now: nat): (after: Relay)
    requires r.m.RefsOk()
    ensures after.m.RefsOk()
  {
    if s !in r.sockets || s !in r.sessions || Requested(r, s, requested).None? then r
    else
      var id := Requested(r, s, requested).value;
      Forget(r.(m := Leave(r.m, s, id, now).0), s, id)
  }

  /** Only a participant may terminate a channel; the answer says whether it did. */
  function OnClose(r: Relay, s: SocketId, requested: Option<ChannelId>, now: nat): (res: (Relay, bool))
    requires r.m.RefsOk()
    ensures res.0.m.RefsOk()
  {
    if s !in r.sockets || s !in r.sessions || Requested(r, s, requested).None? then (r, false)
    else
      var id := Requested(r, s, requested).value;
      var (left, participant) := Leave(r.m, s, id, now);
      if participant.None? then (r.(m := left), false)
      else
        var (closed, ok) := Close(left, id, now);
        if !ok then (r.(m := closed), false)
        else (Forget(r.(m := closed), s, id), true)
  }

  // ---------- Events and runs ----------

  function OnConnect(r: Relay, s: SocketId, ip: Ip, writable: bool): Relay {
    if s in r.sessions then r
    else r.(sockets := r.sockets[s := Conn(true, true, writable)], sessions := r.sessions[s := Session(ip, None, Idle)])
  }

  /** The environment may close a transport but never reopen it. */
  function OnTransport(r: Relay, s: SocketId, connected: bool, open: bool, writable: bool): Relay {
    if s !in r.sockets then r
    else r.(sockets := r.sockets[s := Conn(r.sockets[s].connected && connected, r.sockets[s].open && open, writable)])
  }

  datatype Event =
    | Connected(s: SocketId, ip: Ip, writable: bool)
    | Transport(s: SocketId, connected: bool, open: bool, writable: bool)
    | JoinChannel(s: SocketId, id: ChannelId, role: ClientType, offer: KeyOffer, wantsAck: bool)
    | RoomEntered(s: SocketId, ok: bool)
    | RoomLeft(s: SocketId, ok: bool)
    | MessageSent(s: SocketId, id: ChannelId, data: Payload)
    | LeaveChannel(s: SocketId, requested: Option<ChannelId>)
    | CloseChannel(s: SocketId, requested: Option<ChannelId>)
    | Drained(s: SocketId)
    | Readied(s: SocketId)
    | Disconnected(s: SocketId)
    | Sweep(ids: seq<ChannelId>)

  ghost function Handle(r: Relay, e: Event, now: nat): (after: Relay)
    requires r.m.RefsOk()
    ensures after.m.RefsOk()
  {
    match e
    case Connected(s, ip, writable) => OnConnect(r, s, ip, writable)
    case Transport(s, connected, open, writable) => OnTransport(r, s, connected, open, writable)
    case JoinChannel(s, id, role, offer, wantsAck) => OnJoin(r, s, id, role, offer, wantsAck, now)
    case RoomEntered(s, ok) => OnRoomEntered(r, s, ok, now)
    case RoomLeft(s, ok) => OnRoomLeft(r, s, ok, now)
    case MessageSent(s, id, data) => OnMessage(r, s, id, data, now).0
    case LeaveChannel(s, requested) => OnLeave(r, s, requested, now)
    case CloseChannel(s, requested) => OnClose(r, s, requested, now).0
    case Drained(s) => OnDrain(r, s)
    case Readied(s) => OnReady(r, s, now)
    case Disconnected(s) => Disconnect(r, s, now)
    case Sweep(ids) => r.(m := Cleanup(r.m, ids, now))
  }

  /** An event and how much the clock advanced since the previous one. */
  datatype Timed = Timed(event: Event, elapsed: nat)

  ghost function Step(r: Relay, t: Timed): (after: Relay)
    requires r.m.RefsOk()
    ensures after.m.RefsOk()
  {
    var now := r.clock + t.elapsed;
    Handle(r, t.event, now).(clock := now)
  }

  /** The state after a run of events. */
  ghost function Run(r: Relay, run: seq<Timed>): (after: Relay)
    requires r.m.RefsOk()
    ensures after.m.RefsOk()
  {
    if run == [] then r else Step(Run(r, run[..|run| - 1]), run[|run| - 1])
  }

  lemma RunSnoc(r: Relay, run: seq<Timed>, last: Timed)
    requires r.m.RefsOk()
    ensures Run(r, run + [last]) == Step(Run(r, run), last)
  {
    hide Step;
    assert (run + [last])[..|run|] == run;
  }
}
