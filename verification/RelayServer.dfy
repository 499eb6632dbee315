/**
 The relay server as it runs: the listener map and the per-connection state are
 updated by event handlers that drive the channel manager. Every handler moves
 `View()` exactly as the handler of the same name in `RelaySpec`, and serving an
 event keeps every invariant of the relay.
 */
module RelayServers {
  import opened Options
  import opened RelayTypes
  import opened ManagerSpec
  import opened ManagerSafety
  import opened Mails
  import opened RelaySpec
  import opened RelaySafety
  import opened RelayFates
  import opened Channels
  import opened ChannelManagers

  class RelayServer {
    const manager: ChannelManager
    var directTransportListeners: map<SocketId, Phase>
    /** The transports, as Socket.IO reports them. */
    var sockets: map<SocketId, Conn>
    /** What each connection's closure holds. */
    var sessions: map<SocketId, Session>
    /** What was handed to sockets, in this order: the model's history. */
    ghost var mail: Mail
    ghost var clock: nat

    ghost function View(): (r: Relay)
      requires manager.Wired()
      reads this, manager, manager.made
      ensures r.m.RefsOk()
    {
      Relay(manager.View(), directTransportListeners, sockets, sessions, mail, clock)
    }

    /** The manager is in order and has not run ahead of `now`. */
    ghost predicate Ready(now: nat)
      reads manager, manager.made
    {
      manager.Valid() && manager.clock <= now
    }

    ghost predicate Valid()
      reads this, manager, manager.made
    {
      Ready(clock) && Inv(View(), clock) && MailOk(View())
    }

    /** The only channel objects a handler may write besides the known ones are its own. */
    twostate predicate Grew()
      reads manager
    {
      forall i :: 0 <= i < |manager.made| ==> manager.made[i] in old(manager.made) || fresh(manager.made[i])
    }

    constructor (limits: Limits)
      ensures Valid() && View() == EmptyRelay(limits) && fresh(manager)
    {
      hide ChannelManager.View, ChannelManager.Wired, Sound, Inv, MailOk, EmptyManager;
      manager := new ChannelManager(limits);
      directTransportListeners := map[];
      sockets := map[];
      sessions := map[];
      mail := NO_MAIL;
      clock := 0;
      new;
      EmptyInv(limits);
      EmptyMailOk(limits);
    }

    predicate Alive(s: SocketId)
      reads `sockets
    {
      s in sockets && sockets[s].connected && sockets[s].open
    }

    predicate CanArm(s: SocketId)
      reads `sockets, `directTransportListeners
    {
      Alive(s) && sockets[s].writable && s !in directTransportListeners
    }

    // ---------- The direct-delivery loop ----------

    method ReleaseDirectDelivery(s: SocketId, ghost now: nat)
      requires Ready(now)
      modifies `directTransportListeners, manager, manager.made
      ensures Ready(now) && manager.made == old(manager.made)
      ensures View() == ReleaseDelivery(old(View()), s)
    {
      hide ChannelManager.View, ChannelManager.Wired, Sound, Release, Leave, Advance;
      directTransportListeners := directTransportListeners - {s};
      manager.ReleaseDelivery(s);
    }

    method ArmDirectDelivery(s: SocketId) returns (armed: bool)
      requires manager.Wired()
      modifies `directTransportListeners
      ensures armed == old(View()).CanArm(s)
      ensures View() == if armed then Arm(old(View()), s) else old(View())
    {
      armed := CanArm(s);
      if armed {
        directTransportListeners := directTransportListeners[s := Draining];
      }
    }

    method Disconnect(s: SocketId, now: nat)
      requires Ready(now)
      modifies this, manager, manager.made
      ensures Ready(now) && manager.made == old(manager.made) && clock == old(clock)
      ensures View() == RelaySpec.Disconnect(old(View()), s, now)
    {
      hide ChannelManager.View, ChannelManager.Wired, Sound, Release, Leave, Advance;
      if s !in sockets {
        return;
      }
      sockets := sockets - {s};
      ReleaseDirectDelivery(s, now);
      if s in sessions && sessions[s].current.Some? {
        var _ := manager.Leave(s, sessions[s].current.value, now);
      }
    }

    method OnDrain(s: SocketId)
      requires manager.Wired()
      modifies `directTransportListeners
      ensures View() == RelaySpec.OnDrain(old(View()), s)
    {
      if s in directTransportListeners && directTransportListeners[s] == Draining {
        directTransportListeners := directTransportListeners[s := Readying];
      }
    }

    /** The ready listener: wait on, give up, or write the next message. */
    method OnReady(s: SocketId, now: nat)
      requires Ready(now)
      modifies this, manager, manager.made
      ensures Ready(now) && manager.made == old(manager.made) && clock == old(clock)
      ensures View() == RelaySpec.OnReady(old(View()), s, now)
    {
      hide ChannelManager.View, ChannelManager.Wired, Sound, Release, Leave, Advance;
      if s !in directTransportListeners || directTransportListeners[s] != Readying {
        return;
      }
      if !Alive(s) {
        directTransportListeners := directTransportListeners - {s};
        manager.ReleaseDelivery(s);
        return;
      }
      if !sockets[s].writable {
        return;
      }
      directTransportListeners := directTransportListeners - {s};
      WriteNext(s, now);
    }

    method WriteNext(s: SocketId, now: nat)
      requires Ready(now)
      modifies this, manager, manager.made
      ensures Ready(now) && manager.made == old(manager.made) && clock == old(clock)
      ensures View() == RelaySpec.WriteNext(old(View()), s, now)
    {
      hide ChannelManager.View, ChannelManager.Wired, Sound, Release, Leave, Advance;
      var armed := ArmDirectDelivery(s);
      if !armed {
        manager.ReleaseDelivery(s);
        Disconnect(s, now);
        return;
      }
      ghost var before := manager.View();
      var next := manager.AdvanceDirectDelivery(s);
      if next.None? {
        ReleaseDirectDelivery(s, now);
      } else {
        ghost var ref := before.deliveries[s].channel;
        mail := Post(View(), before, manager.View(), s, ref, before.store[ref].participants[s], Reached).mail;
      }
    }

    // ---------- message ----------

    /** Drop a counterparty that could not be written to and has no write outstanding. */
    method DropSlow(slow: Option<SocketId>, now: nat)
      requires Ready(now)
      modifies this, manager, manager.made
      ensures Ready(now) && manager.made == old(manager.made) && clock == old(clock)
      ensures View() == RelaySpec.DropSlow(old(View()), slow, now)
    {
      hide ChannelManager.View, ChannelManager.Wired, Sound, RelaySpec.Disconnect;
      if slow.Some? {
        var outstanding := manager.HasDirectDelivery(slow.value);
        if !outstanding {
          Disconnect(slow.value, now);
        }
      }
    }

    /** Write a routed message, or give the reservation back and drop the target. */
    method HandOver(target: SocketId, now: nat) returns (ack: Ack)
      requires Ready(now)
      modifies this, manager, manager.made
      ensures Ready(now) && manager.made == old(manager.made) && clock == old(clock)
      ensures (View(), ack) == RelaySpec.HandOver(old(View()), target, now)
    {
      hide ChannelManager.View, ChannelManager.Wired, Sound, RelaySpec.Disconnect, RelaySpec.ReleaseDelivery;
      var armed := ArmDirectDelivery(target);
      if armed {
        return Accepted(false);
      }
      ReleaseDirectDelivery(target, now);
      Disconnect(target, now);
      ack := TransportUnavailable;
    }

    method OnMessage(s: SocketId, id: ChannelId, data: Payload, now: nat) returns (ack: Ack)
      requires Ready(now)
      modifies this, manager, manager.made
      ensures Ready(now) && manager.made == old(manager.made) && clock == old(clock)
      ensures (View(), ack) == RelaySpec.OnMessage(old(View()), s, id, data, now)
    {
      hide ChannelManager.View, ChannelManager.Wired, Sound, Route, RelaySpec.DropSlow, RelaySpec.HandOver;
      if s !in sockets || s !in sessions {
        return Ignored;
      }
      var receivable := set x | x in sockets && CanArm(x);
      assert receivable == View().Receivable();
      ghost var before := manager.View();
      var result := manager.RouteMessage(id, s, data, sessions[s].ip, receivable, now);
      ghost var routed := manager.View();
      DropSlow(result.backpressured, now);
      if result.error.Some? {
        return Failed(result.error.value);
      }
      if result.target.Some? {
        ack := HandOver(result.target.value, now);
        if ack == Accepted(false) {
          mail := Post(View(), before, routed, result.target.value, before.channels[id], Other(data.clientType),
                       Reached).mail;
        }
        return;
      }
      ack := Accepted(result.buffered);
    }

    // ---------- join_channel ----------

    /** A join would need a new channel and the server already has all it admits. */
    method AtCapacity(id: ChannelId) returns (full: bool)
      requires manager.Wired()
      ensures var m := View().m; full == (id !in m.channels && |LiveIds(m)| >= m.limits.maxActiveChannels)
    {
      manager.ViewFacts();
      var known := manager.HasChannel(id);
      var live := manager.GetActiveChannelCount();
      full := !known && live >= manager.limits.maxActiveChannels;
    }

    method OnJoin(s: SocketId, id: ChannelId, role: ClientType, offer: KeyOffer, wantsAck: bool, now: nat)
      returns (ack: Option<JoinAck>)
      requires Ready(now)
      modifies this, manager, manager.made
      ensures Ready(now) && Grew() && clock == old(clock)
      ensures View() == RelaySpec.OnJoin(old(View()), s, id, role, offer, wantsAck, now)
      ensures ack == OnJoinAck(old(View()), s, id, role, offer, wantsAck, now)
    {
      hide ChannelManager.View, ChannelManager.Wired, Sound, RelaySpec.Seat, SeatAck, LiveIds;
      if s !in sockets || s !in sessions {
        return None;
      }
      if !sessions[s].joining.Idle? {
        return if wantsAck then Some(AlreadyJoining) else None;
      }
      var full := AtCapacity(id);
      if full {
        return if wantsAck then Some(RelaySpec.AtCapacity) else None;
      }
      var session := sessions[s];
      if session.current != Some(id) {
        sessions := sessions[s := session.(joining := Entering(id, role, offer, session.current.Some?, wantsAck))];
        return None;
      }
      ack := Seat(s, id, role, offer, false, false, wantsAck, now);
    }

    /** Join the manager, then leave the previous channel; the answer is given unless a room has to be left first. */
    lemma SeatUnfolds(r: Relay, s: SocketId, id: ChannelId, role: ClientType, offer: KeyOffer, switching: bool,
                      inRoom: bool, wantsAck: bool, now: nat)
      requires r.m.RefsOk() && s in r.sessions
      ensures var session, ip := r.sessions[s], Some(r.sessions[s].ip);
              var (m', result) := Join(r.m, id, s, role, offer, ip, r.sockets.Keys, now);
              var after := RelaySpec.Seat(r, s, id, role, offer, switching, inRoom, wantsAck, now);
              var ack := SeatAck(r, s, id, role, offer, switching, inRoom, wantsAck, now);
              var moves := switching && session.current.Some?;
              var mail := Post(r, r.m, m', s, ObjectFor(r.m, id), role, BatchStanding(r, s, moves, wantsAck)).mail;
              var done := r.(m := m', mail := if Seated(result) then mail else r.mail);
              if Seated(result) && moves then
                && after == done.(m := Leave(m', s, session.current.value, now).0)
                                .WithSession(s, session.(joining := Departing(id, result, wantsAck)))
                && ack.None?
              else
                && after == done.WithSession(s, if Seated(result) then session.(current := Some(id), joining := Idle)
                                                else session.(joining := if inRoom
                                                                         then Retreating(Answered(result), wantsAck)
                                                                         else Idle))
                && (ack == if wantsAck && (Seated(result) || !inRoom) then Some(Answered(result)) else None)
    {
      hide Join, Leave, BatchStanding, ObjectFor;
    }

    method Seat(s: SocketId, id: ChannelId, role: ClientType, offer: KeyOffer, switching: bool, inRoom: bool,
                wantsAck: bool, now: nat)
      returns (ack: Option<JoinAck>)
      requires Ready(now) && s in sessions
      modifies this, manager, manager.made
      ensures Ready(now) && Grew() && clock == old(clock)
      ensures View() == RelaySpec.Seat(old(View()), s, id, role, offer, switching, inRoom, wantsAck, now)
      ensures ack == SeatAck(old(View()), s, id, role, offer, switching, inRoom, wantsAck, now)
    {
      hide ChannelManager.View, ChannelManager.Wired, Sound, Join, Leave, Post, BatchStanding, ObjectFor;
      hide RelaySpec.Seat, SeatAck;
      var session := sessions[s];
      var moves := switching && session.current.Some?;
      ghost var r := View();
      SeatUnfolds(r, s, id, role, offer, switching, inRoom, wantsAck, now);
      var result := manager.Join(id, s, role, offer, Some(session.ip), sockets.Keys, now);
      assert forall i :: 0 <= i < |manager.made| ==> manager.made[i] in old(manager.made) || fresh(manager.made[i]);
      ack := if wantsAck then Some(Answered(result)) else None;
      if !Seated(result) {
        if inRoom {
          session, ack := session.(joining := Retreating(Answered(result), wantsAck)), None;
        } else {
          session := session.(joining := Idle);
        }
      } else {
        mail := Post(r, r.m, manager.View(), s, ObjectFor(r.m, id), role, BatchStanding(r, s, moves, wantsAck)).mail;
        if moves {
          var _ := manager.Leave(s, session.current.value, now);
          session, ack := session.(joining := Departing(id, result, wantsAck)), None;
        } else {
          session := session.(current := Some(id), joining := Idle);
        }
      }
      sessions := sessions[s := session];
    }

    method OnRoomEntered(s: SocketId, ok: bool, now: nat) returns (ack: Option<JoinAck>)
      requires Ready(now)
      modifies this, manager, manager.made
      ensures Ready(now) && Grew() && clock == old(clock)
      ensures View() == RelaySpec.OnRoomEntered(old(View()), s, ok, now)
      ensures ack == OnRoomEnteredAck(old(View()), s, ok, now)
    {
      hide ChannelManager.View, ChannelManager.Wired, Sound, RelaySpec.Seat, SeatAck;
      if s !in sessions || !sessions[s].joining.Entering? {
        return None;
      }
      var j := sessions[s].joining;
      if ok {
        ack := Seat(s, j.id, j.role, j.offer, j.switching, true, j.wantsAck, now);
      } else {
        sessions := sessions[s := sessions[s].(joining := Idle)];
        ack := if j.wantsAck then Some(Unable) else None;
      }
    }

    /** Give the owed answer, or back out of the room; the answer to a join that failed follows the backing out. */
    method OnRoomLeft(s: SocketId, ok: bool, now: nat) returns (ack: Option<JoinAck>)
      requires Ready(now)
      modifies this, manager, manager.made
      ensures Ready(now) && manager.made == old(manager.made) && clock == old(clock)
      ensures View() == RelaySpec.OnRoomLeft(old(View()), s, ok, now)
      ensures ack == OnRoomLeftAck(old(View()), s, ok)
    {
      hide ChannelManager.View, ChannelManager.Wired, Sound, Leave;
      if s !in sessions {
        return None;
      }
      var session := sessions[s];
      match session.joining
      case Departing(id, answer, wantsAck) =>
        mail := Resolve(View(), s, ok && View().Alive(s)).mail;
        if ok {
          sessions := sessions[s := session.(current := Some(id), joining := Idle)];
          return if wantsAck then Some(Answered(answer)) else None;
        }
        var _ := manager.Leave(s, id, now);
        sessions := sessions[s := session.(joining := Retreating(Unable, wantsAck))];
        return None;
      case Retreating(failure, wantsAck) =>
        if ok || failure == Unable {
          sessions := sessions[s := session.(joining := Idle)];
          return if wantsAck then Some(failure) else None;
        }
        sessions := sessions[s := session.(joining := Retreating(Unable, wantsAck))];
        return None;
      case _ =>
        return None;
    }

    // ---------- leave_channel and close_channel ----------

    method OnLeave(s: SocketId, requested: Option<ChannelId>, now: nat)
      requires Ready(now)
      modifies this, manager, manager.made
      ensures Ready(now) && manager.made == old(manager.made) && clock == old(clock)
      ensures View() == RelaySpec.OnLeave(old(View()), s, requested, now)
    {
      hide ChannelManager.View, ChannelManager.Wired, Sound, Leave;
      if s !in sockets || s !in sessions {
        return;
      }
      var session := sessions[s];
      var id := if requested.Some? then requested else session.current;
      if id.None? {
        return;
      }
      var _ := manager.Leave(s, id.value, now);
      if session.current == id {
        sessions := sessions[s := session.(current := None)];
      }
    }

    method OnClose(s: SocketId, requested: Option<ChannelId>, now: nat) returns (confirmed: bool)
      requires Ready(now)
      modifies this, manager, manager.made
      ensures Ready(now) && manager.made == old(manager.made) && clock == old(clock)
      ensures (View(), confirmed) == RelaySpec.OnClose(old(View()), s, requested, now)
    {
      hide ChannelManager.View, ChannelManager.Wired, Sound, Leave, Close;
      if s !in sockets || s !in sessions {
        return false;
      }
      var session := sessions[s];
      var id := if requested.Some? then requested else session.current;
      if id.None? {
        return false;
      }
      var participant := manager.Leave(s, id.value, now);
      if participant.None? {
        return false;
      }
      confirmed := manager.Close(id.value, now);
      if confirmed && session.current == id {
        sessions := sessions[s := session.(current := None)];
      }
    }

    // ---------- Connections and transports ----------

    method OnConnect(s: SocketId, ip: Ip, writable: bool)
      requires manager.Wired()
      modifies `sockets, `sessions
      ensures View() == RelaySpec.OnConnect(old(View()), s, ip, writable)
    {
      if s in sessions {
        return;
      }
      sockets := sockets[s := Conn(true, true, writable)];
      sessions := sessions[s := Session(ip, None, Idle)];
    }

    method OnTransport(s: SocketId, connected: bool, open: bool, writable: bool)
      requires manager.Wired()
      modifies `sockets
      ensures View() == RelaySpec.OnTransport(old(View()), s, connected, open, writable)
    {
      if s in sockets {
        sockets := sockets[s := Conn(sockets[s].connected && connected, sockets[s].open && open, writable)];
      }
    }

    method OnSweep(now: nat) returns (ghost ids: seq<ChannelId>)
      requires Ready(now)
      modifies manager, manager.made
      ensures Ready(now) && manager.made == old(manager.made)
      ensures forall id :: id in old(manager.View()).channels ==> id in ids
      ensures manager.View() == Cleanup(old(manager.View()), ids, now)
    {
      hide ChannelManager.View, ChannelManager.Wired, Sound, Cleanup;
      ids := manager.Cleanup(now);
    }

    // ---------- Serving an event ----------

    /** A sweep reports the order in which it visited every channel; other events are served as they are. */
    static ghost predicate Serves(m: Manager, e: Event, served: Event) {
      if e.Sweep? then served.Sweep? && forall id :: id in m.channels ==> id in served.ids else served == e
    }

    lemma AsServed(m: Manager)
      ensures forall e: Event :: !e.Sweep? ==> Serves(m, e, e)
      ensures forall e: Event, ids :: e.Sweep? && (forall id :: id in m.channels ==> id in ids) ==>
                                        Serves(m, e, Sweep(ids))
    {
    }

    /** Run the handler of an event; a sweep visits the channels in an order of its own. */
    method Dispatch(e: Event, now: nat) returns (ghost served: Event)
      requires Ready(now)
      modifies this, manager, manager.made
      ensures Ready(now) && clock == old(clock)
      ensures View() == Handle(old(View()), served, now)
      ensures Serves(old(View()).m, e, served)
    {
      hide ChannelManager.View, ChannelManager.Wired, Sound, RelaySpec.OnJoin, RelaySpec.OnRoomEntered,
           RelaySpec.OnRoomLeft, RelaySpec.OnMessage, RelaySpec.OnLeave, RelaySpec.OnClose, RelaySpec.OnReady,
           RelaySpec.OnDrain, RelaySpec.OnConnect, RelaySpec.OnTransport, RelaySpec.Disconnect, Cleanup, Grew, Serves;
      AsServed(old(View()).m);
      served := e;
      match e
      case Connected(s, ip, writable) => OnConnect(s, ip, writable);
      case Transport(s, connected, open, writable) => OnTransport(s, connected, open, writable);
      case JoinChannel(s, id, role, offer, wantsAck) => var _ := OnJoin(s, id, role, offer, wantsAck, now);
      case RoomEntered(s, ok) => var _ := OnRoomEntered(s, ok, now);
      case RoomLeft(s, ok) => var _ := OnRoomLeft(s, ok, now);
      case MessageSent(s, id, data) => var _ := OnMessage(s, id, data, now);
      case LeaveChannel(s, requested) => OnLeave(s, requested, now);
      case CloseChannel(s, requested) => var _ := OnClose(s, requested, now);
      case Drained(s) => OnDrain(s);
      case Readied(s) => OnReady(s, now);
      case Disconnected(s) => Disconnect(s, now);
      case Sweep(_) =>
        ghost var ids := OnSweep(now);
        served := Sweep(ids);
    }

    /** One event of a run: the step of the abstract relay, with every invariant kept. */
    method Serve(e: Event, now: nat) returns (ghost served: Event)
      requires Valid() && clock <= now
      modifies this, manager, manager.made
      ensures Valid() && clock == now
      ensures View() == Step(old(View()), Timed(served, now - old(clock)))
      ensures Serves(old(View()).m, e, served)
    {
      hide ChannelManager.View, ChannelManager.Wired, Sound, Inv, MailOk, Handle, Serves;
      served := Dispatch(e, now);
      clock := now;
      StepKeepsInv(old(View()), Timed(served, now - old(clock)));
      StepKeepsMail(old(View()), Timed(served, now - old(clock)));
    }
  }
}
