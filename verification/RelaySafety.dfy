/**
 What every event of the relay keeps, over every run: a sound manager, one
 armed listener for exactly the sockets that hold a reservation, and at most
 one channel per socket, also at the await points inside a join.
 */
module RelaySafety {
  import opened Options
  import opened RelayTypes
  import opened ManagerSpec
  import opened ManagerSafety
  import opened ManagerOps
  import opened ManagerRouting
  import opened ManagerEffects
  import opened ManagerSteps
  import opened Mails
  import opened RelaySpec
  import opened RelaySteps

  /** A socket waits for a transport event exactly when it has a write outstanding, and only while it exists. */
  ghost predicate Coherent(r: Relay) {
    && r.listeners.Keys == r.m.deliveries.Keys
    && r.m.deliveries.Keys <= r.sockets.Keys
    && r.sockets.Keys <= r.sessions.Keys
  }

  /** The only channel a session's socket may be seated in. */
  function Home(session: Session): Option<ChannelId> {
    if session.joining.Departing? then Some(session.joining.id) else session.current
  }

  ghost predicate HomeSeats(r: Relay)
    requires r.m.RefsOk()
  {
    forall id: ChannelId, s: SocketId :: SeatedAt(r.m, id, s) ==> s in r.sessions && Home(r.sessions[s]) == Some(id)
  }

  /** A socket entering a room will leave whatever channel it still belongs to. */
  predicate Entrance(session: Session) {
    session.joining.Entering? && session.current.Some? ==>
      session.joining.switching && session.current != Some(session.joining.id)
  }

  ghost predicate Tidy(r: Relay)
    requires r.m.RefsOk()
  {
    && Coherent(r)
    && HomeSeats(r)
    && (forall s :: s in r.sessions ==> Entrance(r.sessions[s]))
  }

  ghost predicate Inv(r: Relay, now: nat) {
    Sound(r.m, now) && Tidy(r)
  }

  /** A socket is a participant of at most one channel at every event boundary. */
  lemma OneChannelPerSocket(r: Relay, now: nat, a: ChannelId, b: ChannelId, s: SocketId)
    requires Inv(r, now) && SeatedAt(r.m, a, s) && SeatedAt(r.m, b, s)
    ensures a == b
  {
  }

  lemma EmptyInv(limits: Limits)
    ensures Inv(EmptyRelay(limits), 0)
  {
    EmptySound(limits, 0);
  }

  lemma InvLater(r: Relay, now: nat, later: nat)
    requires Inv(r, now) && now <= later
    ensures Inv(r, later)
  {
    SoundLater(r.m, now, later);
  }

  // ---------- Coherence and seats ----------

  lemma DisconnectTidy(r: Relay, s: SocketId, now: nat)
    requires r.m.RefsOk() && Tidy(r)
    ensures Tidy(Disconnect(r, s, now))
    ensures s !in Disconnect(r, s, now).sockets
  {
    hide Release, Leave;
    ReleaseEffect(r.m, s);
    SameSeatsNoNew(r.m, Release(r.m, s));
    if s in r.sessions && r.sessions[s].current.Some? {
      LeaveEffect(Release(r.m, s), s, r.sessions[s].current.value, now);
    }
  }

  lemma ReleaseTidy(r: Relay, s: SocketId)
    requires r.m.RefsOk() && Tidy(r)
    ensures Tidy(ReleaseDelivery(r, s))
  {
    hide Release;
    ReleaseEffect(r.m, s);
    SameSeatsNoNew(r.m, Release(r.m, s));
  }

  lemma OnReadyTidy(r: Relay, s: SocketId, now: nat)
    requires r.m.RefsOk() && Tidy(r)
    ensures Tidy(OnReady(r, s, now))
  {
    hide Release, Advance;
    ReleaseTidy(r, s);
    AdvanceEffect(r.m, s);
    var advanced := Advance(r.m, s).0;
    SameSeatsNoNew(r.m, advanced);
    if s in r.listeners {
      var armed := Arm(r.(listeners := r.listeners - {s}), s).(m := advanced);
      if Advance(r.m, s).1.None? {
        ReleaseEffect(advanced, s);
        SameSeatsNoNew(advanced, Release(advanced, s));
        assert ReleaseDelivery(armed, s).listeners == r.listeners - {s};
      }
    }
  }

  /** What a firing of the ready listener comes to: it gives up on a dead socket, waits on while the transport is not
      writable, and otherwise promotes a waiting message under a new listener or, if there is none, releases. The
      socket can always be armed then, so the branch that drops it is never taken. */
  lemma OnReadyOutcome(r: Relay, s: SocketId, now: nat)
    requires r.m.RefsOk() && Coherent(r) && s in r.listeners && r.listeners[s] == Readying
    ensures var after, next := OnReady(r, s, now), Advance(r.m, s).1;
            && (r.Alive(s) && r.sockets[s].writable <==> r.(listeners := r.listeners - {s}).CanArm(s))
            && if !r.Alive(s) then
                 after == ReleaseDelivery(r, s) && s !in after.m.deliveries
               else if !r.sockets[s].writable then after == r
               else if next.Some? then
                 && after.listeners == r.listeners[s := Draining] && after.m == Advance(r.m, s).0
                 && s in after.m.deliveries && after.m.deliveries[s].channel == r.m.deliveries[s].channel
               else after.listeners == r.listeners - {s} && s !in after.m.deliveries
    ensures forall t: SocketId :: t != s ==>
              && (t in OnReady(r, s, now).m.deliveries <==> t in r.m.deliveries)
              && (t in r.m.deliveries ==> OnReady(r, s, now).m.deliveries[t] == r.m.deliveries[t])
  {
    hide Release, Advance, Disconnect;
    ReleaseEffect(r.m, s);
    AdvanceEffect(r.m, s);
    ReleaseEffect(Advance(r.m, s).0, s);
  }

  /** A routed direct write always finds its target armable: the two checks read the same turn's state. */
  lemma DirectTargetArms(r: Relay, s: SocketId, id: ChannelId, data: Payload, now: nat)
    requires r.m.RefsOk() && Tidy(r) && s in r.sessions
    ensures var (m', result) := Route(r.m, id, s, data, r.sessions[s].ip, r.Receivable(), now);
            result.target.Some? ==>
              && r.CanArm(result.target.value)
              && result.backpressured.None? && result.error.None?
              && OnMessage(r, s, id, data, now).1 != TransportUnavailable
  {
    RouteReserves(r.m, id, s, data, r.sessions[s].ip, r.Receivable(), now);
    hide Route;
  }

  /** A direct write arms its target and posts what routing settled; nobody is dropped. */
  lemma DirectMessage(r: Relay, s: SocketId, id: ChannelId, data: Payload, now: nat)
    requires r.m.RefsOk() && Tidy(r) && s in r.sockets && s in r.sessions
    requires Route(r.m, id, s, data, r.sessions[s].ip, r.Receivable(), now).1.target.Some?
    ensures var (m', result) := Route(r.m, id, s, data, r.sessions[s].ip, r.Receivable(), now);
            var target := result.target.value;
            && id in r.m.channels && r.CanArm(target)
            && OnMessage(r, s, id, data, now) ==
               (Post(Arm(r.(m := m'), target), r.m, m', target, r.m.channels[id], Other(data.clientType), Reached),
                Accepted(false))
  {
    hide Route, Post;
    DirectTargetArms(r, s, id, data, now);
  }

  lemma OnMessageTidy(r: Relay, s: SocketId, id: ChannelId, data: Payload, now: nat)
    requires r.m.RefsOk() && Tidy(r)
    ensures Tidy(OnMessage(r, s, id, data, now).0)
  {
    hide Route, Post;
    if s in r.sockets && s in r.sessions {
      var (m', result) := Route(r.m, id, s, data, r.sessions[s].ip, r.Receivable(), now);
      RouteReserves(r.m, id, s, data, r.sessions[s].ip, r.Receivable(), now);
      RouteEffect(r.m, id, s, data, r.sessions[s].ip, r.Receivable(), now);
      SameSeatsNoNew(r.m, m');
      var routed := r.(m := m');
      if result.target.Some? {
        DirectTargetArms(r, s, id, data, now);
        DirectMessage(r, s, id, data, now);
      } else {
        if result.backpressured.Some? {
          DisconnectTidy(routed, result.backpressured.value, now);
        }
        hide Disconnect;
      }
    }
  }

  /** What seating does apart from posting the batch. */
  lemma SeatFacts(r: Relay, s: SocketId, id: ChannelId, role: ClientType, offer: KeyOffer,
                  switching: bool, inRoom: bool, wantsAck: bool, now: nat)
    requires r.m.RefsOk() && s in r.sessions
    ensures var (m', result) := SeatResult(r, s, id, role, offer, now);
            var session := r.sessions[s];
            var moves := Seated(result) && switching && session.current.Some?;
            var after := Seat(r, s, id, role, offer, switching, inRoom, wantsAck, now);
            && s in after.sessions && !after.sessions[s].joining.Entering?
            && Home(after.sessions[s]) == (if Seated(result) then Some(id) else session.current)
            && after == r.(m := if moves then Leave(m', s, session.current.value, now).0 else m',
                           sessions := r.sessions[s := after.sessions[s]], mail := after.mail)
  {
    hide Join, Leave, Post, BatchStanding;
  }

  /** Seating a socket leaves every reservation and every listener as it was. */
  lemma SeatKeepsReservations(r: Relay, s: SocketId, id: ChannelId, role: ClientType, offer: KeyOffer,
                              switching: bool, inRoom: bool, wantsAck: bool, now: nat)
    requires r.m.RefsOk() && Shape(r.m, now) && Coherent(r) && s in r.sessions
    ensures var after := Seat(r, s, id, role, offer, switching, inRoom, wantsAck, now);
            after.m.deliveries == r.m.deliveries && after.listeners == r.listeners
  {
    hide Join, Leave, Shape, Seat;
    var session := r.sessions[s];
    var m' := SeatResult(r, s, id, role, offer, now).0;
    SeatFacts(r, s, id, role, offer, switching, inRoom, wantsAck, now);
    JoinEffect(r.m, id, s, role, offer, Some(session.ip), r.sockets.Keys, now);
    if session.current.Some? {
      LeaveEffect(m', s, session.current.value, now);
    }
  }

  lemma SeatTidy(r: Relay, s: SocketId, id: ChannelId, role: ClientType, offer: KeyOffer,
                 switching: bool, inRoom: bool, wantsAck: bool, now: nat)
    requires r.m.RefsOk() && Shape(r.m, now) && Tidy(r) && s in r.sessions
    requires !r.sessions[s].joining.Departing?
    requires r.sessions[s].current.Some? && r.sessions[s].current != Some(id) ==> switching
    ensures Tidy(Seat(r, s, id, role, offer, switching, inRoom, wantsAck, now))
  {
    hide Join, Leave, Shape, Seat;
    var session := r.sessions[s];
    var (m', result) := SeatResult(r, s, id, role, offer, now);
    SeatFacts(r, s, id, role, offer, switching, inRoom, wantsAck, now);
    JoinEffect(r.m, id, s, role, offer, Some(session.ip), r.sockets.Keys, now);
    assert m'.deliveries == r.m.deliveries;
    if Seated(result) && session.current.Some? {
      LeaveEffect(m', s, session.current.value, now);
    }
  }

  lemma OnRoomLeftTidy(r: Relay, s: SocketId, ok: bool, now: nat)
    requires r.m.RefsOk() && Tidy(r)
    ensures Tidy(OnRoomLeft(r, s, ok, now))
  {
    hide Leave;
    if s in r.sessions && r.sessions[s].joining.Departing? {
      LeaveEffect(r.m, s, r.sessions[s].joining.id, now);
    }
  }

  lemma OnLeaveTidy(r: Relay, s: SocketId, requested: Option<ChannelId>, now: nat)
    requires r.m.RefsOk() && Tidy(r)
    ensures Tidy(OnLeave(r, s, requested, now))
  {
    hide Leave;
    if s in r.sessions && Requested(r, s, requested).Some? {
      LeaveEffect(r.m, s, Requested(r, s, requested).value, now);
    }
  }

  lemma OnCloseTidy(r: Relay, s: SocketId, requested: Option<ChannelId>, now: nat)
    requires r.m.RefsOk() && Tidy(r)
    ensures Tidy(OnClose(r, s, requested, now).0)
  {
    hide Leave, Close, Tidy;
    if s in r.sessions && Requested(r, s, requested).Some? {
      var id := Requested(r, s, requested).value;
      var left := Leave(r.m, s, id, now).0;
      LeaveEffect(r.m, s, id, now);
      CloseEffect(left, id, now);
      var closed := Close(left, id, now).0;
      PartedTidy(r, left, s, id);
      NoNewSeatsTwice(r.m, left, closed);
      UnseatedStays(left, closed, id, s);
      PartedTidy(r, closed, s, id);
    }
  }

  lemma NoNewSeatsTwice(a: Manager, b: Manager, c: Manager)
    requires a.RefsOk() && b.RefsOk() && c.RefsOk() && NoNewSeats(a, b) && NoNewSeats(b, c)
    ensures NoNewSeats(a, c)
  {
  }

  lemma UnseatedStays(m: Manager, after: Manager, id: ChannelId, s: SocketId)
    requires m.RefsOk() && after.RefsOk() && NoNewSeats(m, after) && !SeatedAt(m, id, s)
    ensures !SeatedAt(after, id, s)
  {
  }

  /** Losing seats is tidy, and so is forgetting a channel in which the socket has no seat. */
  lemma PartedTidy(r: Relay, m: Manager, s: SocketId, id: ChannelId)
    requires r.m.RefsOk() && Tidy(r) && s in r.sessions && m.RefsOk()
    requires m.deliveries == r.m.deliveries && NoNewSeats(r.m, m) && !SeatedAt(m, id, s)
    ensures Tidy(r.(m := m)) && Tidy(Forget(r.(m := m), s, id))
  {
  }

  lemma JoiningTidy(r: Relay, e: Event, now: nat)
    requires r.m.RefsOk() && Shape(r.m, now) && Tidy(r) && (e.JoinChannel? || e.RoomEntered?)
    ensures Tidy(Handle(r, e, now))
  {
    hide Shape, Seat, LiveIds;
    if e.s in r.sessions {
      var session := r.sessions[e.s];
      if e.JoinChannel? && session.joining.Idle? && session.current == Some(e.id) {
        SeatTidy(r, e.s, e.id, e.role, e.offer, false, false, e.wantsAck, now);
      }
      if e.RoomEntered? && session.joining.Entering? {
        var j := session.joining;
        SeatTidy(r, e.s, j.id, j.role, j.offer, j.switching, true, j.wantsAck, now);
      }
    }
  }

  lemma HandleTidy(r: Relay, e: Event, now: nat)
    requires r.m.RefsOk() && Shape(r.m, now) && Tidy(r)
    ensures Tidy(Handle(r, e, now))
  {
    hide Shape, OnJoin, OnRoomEntered, OnRoomLeft, OnMessage, OnLeave, OnClose, OnReady, Disconnect, Cleanup;
    match e
    case JoinChannel(_, _, _, _, _) => JoiningTidy(r, e, now);
    case RoomEntered(_, _) => JoiningTidy(r, e, now);
    case RoomLeft(s, ok) => OnRoomLeftTidy(r, s, ok, now);
    case MessageSent(s, id, data) => OnMessageTidy(r, s, id, data, now);
    case LeaveChannel(s, requested) => OnLeaveTidy(r, s, requested, now);
    case CloseChannel(s, requested) => OnCloseTidy(r, s, requested, now);
    case Readied(s) => OnReadyTidy(r, s, now);
    case Disconnected(s) => DisconnectTidy(r, s, now);
    case Sweep(ids) => CleanupEffect(r.m, ids, now);
    case _ =>
  }

  // ---------- Runs ----------

  lemma StepKeepsInv(r: Relay, t: Timed)
    requires r.m.RefsOk() && Inv(r, r.clock)
    ensures Inv(Step(r, t), Step(r, t).clock)
  {
    hide Handle, Body, Lifecycle, Coherent, HomeSeats;
    var now := r.clock + t.elapsed;
    InvLater(r, r.clock, now);
    HandleKeepsSound(r, t.event, now);
    BodyShape(r.m, now);
    HandleTidy(r, t.event, now);
    ClockKeepsTidy(Handle(r, t.event, now), now);
  }

  lemma ClockKeepsTidy(r: Relay, now: nat)
    requires r.m.RefsOk() && Tidy(r)
    ensures Tidy(r.(clock := now))
  {
  }

  /** Every run from the empty relay ends in a state with every invariant. */
  lemma {:induction false} RunKeepsInv(limits: Limits, run: seq<Timed>)
    ensures Inv(Run(EmptyRelay(limits), run), Run(EmptyRelay(limits), run).clock)
  {
    if run == [] {
      EmptyInv(limits);
    } else {
      hide Inv, Step;
      RunKeepsInv(limits, run[..|run| - 1]);
      StepKeepsInv(Run(EmptyRelay(limits), run[..|run| - 1]), run[|run| - 1]);
    }
  }
}
