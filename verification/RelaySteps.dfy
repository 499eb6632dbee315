/** Every relay event changes the manager by a sequence of the manager's own operations. */
module RelaySteps {
  import opened Options
  import opened RelayTypes
  import opened ManagerSpec
  import opened ManagerSafety
  import opened ManagerSteps
  import opened RelaySpec

  lemma DisconnectOps(r: Relay, s: SocketId, now: nat) returns (ops: seq<Op>)
    requires r.m.RefsOk()
    ensures Disconnect(r, s, now).m == ApplyAll(r.m, ops, now)
    ensures OnlySubtract(ops)
  {
    hide Release, Leave;
    if s !in r.sockets {
      return [];
    }
    ops := [ReleaseOp(s)];
    ApplyOne(r.m, ops[0], now);
    if s in r.sessions && r.sessions[s].current.Some? {
      var leave := LeaveOp(s, r.sessions[s].current.value);
      ApplyOne(Release(r.m, s), leave, now);
      ApplyAllConcat(r.m, ops, [leave], now);
      ops := ops + [leave];
    }
  }

  lemma WriteNextOps(r: Relay, s: SocketId, now: nat) returns (ops: seq<Op>)
    requires r.m.RefsOk()
    ensures WriteNext(r, s, now).m == ApplyAll(r.m, ops, now)
    ensures NoJoinIn(ops) && NoRouteIn(ops)
  {
    hide Release, Advance, Disconnect;
    var first := if r.CanArm(s) then AdvanceOp(s) else ReleaseOp(s);
    ApplyOne(r.m, first, now);
    ops := [first];
    if !r.CanArm(s) {
      var rest := DisconnectOps(r.(m := Release(r.m, s)), s, now);
      ApplyAllConcat(r.m, ops, rest, now);
      ops := ops + rest;
    } else if Advance(r.m, s).1.None? {
      ApplyOne(Advance(r.m, s).0, ReleaseOp(s), now);
      ApplyAllConcat(r.m, ops, [ReleaseOp(s)], now);
      ops := ops + [ReleaseOp(s)];
    }
  }

  lemma OnReadyOps(r: Relay, s: SocketId, now: nat) returns (ops: seq<Op>)
    requires r.m.RefsOk()
    ensures OnReady(r, s, now).m == ApplyAll(r.m, ops, now)
    ensures NoJoinIn(ops) && NoRouteIn(ops)
  {
    hide Release, WriteNext;
    if s !in r.listeners || r.listeners[s] != Readying || (r.Alive(s) && !r.sockets[s].writable) {
      return [];
    }
    if !r.Alive(s) {
      ApplyOne(r.m, ReleaseOp(s), now);
      return [ReleaseOp(s)];
    }
    ops := WriteNextOps(r.(listeners := r.listeners - {s}), s, now);
  }

  lemma HandOverOps(r: Relay, target: SocketId, now: nat) returns (ops: seq<Op>)
    requires r.m.RefsOk()
    ensures HandOver(r, target, now).0.m == ApplyAll(r.m, ops, now)
    ensures OnlySubtract(ops)
  {
    hide Release, Disconnect;
    if r.CanArm(target) {
      return [];
    }
    ApplyOne(r.m, ReleaseOp(target), now);
    var rest := DisconnectOps(ReleaseDelivery(r, target), target, now);
    ApplyAllConcat(r.m, [ReleaseOp(target)], rest, now);
    ops := [ReleaseOp(target)] + rest;
  }

  lemma ApplyNone(m: Manager, now: nat)
    requires m.RefsOk()
    ensures ApplyAll(m, [], now) == m
  {
  }

  lemma OnMessageOps(r: Relay, s: SocketId, id: ChannelId, data: Payload, now: nat) returns (ops: seq<Op>)
    requires r.m.RefsOk()
    ensures OnMessage(r, s, id, data, now).0.m == ApplyAll(r.m, ops, now)
    ensures NoJoinIn(ops)
  {
    hide Route, Disconnect, HandOver, ApplyAll, Relay.Receivable;
    if s !in r.sockets || s !in r.sessions {
      ApplyNone(r.m, now);
      return [];
    }
    var route := RouteOp(id, s, data, r.sessions[s].ip, r.Receivable());
    var (m', result) := Route(r.m, id, s, data, r.sessions[s].ip, r.Receivable(), now);
    ApplyOne(r.m, route, now);
    ops := [route];
    var routed := DropSlow(r.(m := m'), result.backpressured, now);
    if routed != r.(m := m') {
      var rest := DisconnectOps(r.(m := m'), result.backpressured.value, now);
      ApplyAllConcat(r.m, ops, rest, now);
      ops := ops + rest;
    }
    if result.error.None? && result.target.Some? {
      var rest := HandOverOps(routed, result.target.value, now);
      ApplyAllConcat(r.m, ops, rest, now);
      ops := ops + rest;
    }
  }

  lemma SeatOps(r: Relay, s: SocketId, id: ChannelId, role: ClientType, offer: KeyOffer,
                switching: bool, inRoom: bool, wantsAck: bool, now: nat)
    returns (ops: seq<Op>)
    requires r.m.RefsOk() && s in r.sessions
    ensures Seat(r, s, id, role, offer, switching, inRoom, wantsAck, now).m == ApplyAll(r.m, ops, now)
    ensures JoinsFirst(ops) && NoRouteIn(ops)
  {
    hide Join, Leave;
    var session := r.sessions[s];
    var join := JoinOp(id, s, role, offer, Some(session.ip), r.sockets.Keys);
    var (m', result) := SeatResult(r, s, id, role, offer, now);
    ApplyOne(r.m, join, now);
    ops := [join];
    if Seated(result) && switching && session.current.Some? {
      var leave := LeaveOp(s, session.current.value);
      ApplyOne(m', leave, now);
      ApplyAllConcat(r.m, ops, [leave], now);
      ops := ops + [leave];
    }
  }

  lemma JoiningOps(r: Relay, e: Event, now: nat) returns (ops: seq<Op>)
    requires r.m.RefsOk() && (e.JoinChannel? || e.RoomEntered? || e.RoomLeft?)
    ensures Handle(r, e, now).m == ApplyAll(r.m, ops, now)
    ensures JoinsFirst(ops) && NoRouteIn(ops) && (e.RoomLeft? ==> OnlySubtract(ops))
  {
    hide Seat, Leave;
    if Handle(r, e, now).m == r.m {
      return [];
    }
    var session := r.sessions[e.s];
    match e
    case JoinChannel(s, id, role, offer, wantsAck) =>
      ops := SeatOps(r, s, id, role, offer, false, false, wantsAck, now);
    case RoomEntered(s, ok) =>
      var j := session.joining;
      ops := SeatOps(r, s, j.id, j.role, j.offer, j.switching, true, j.wantsAck, now);
    case RoomLeft(s, ok) =>
      ops := [LeaveOp(s, session.joining.id)];
      ApplyOne(r.m, ops[0], now);
  }

  lemma PartingOps(r: Relay, e: Event, now: nat) returns (ops: seq<Op>)
    requires r.m.RefsOk() && (e.LeaveChannel? || e.CloseChannel?)
    ensures Handle(r, e, now).m == ApplyAll(r.m, ops, now)
    ensures OnlySubtract(ops)
  {
    hide Leave, Close;
    if e.s !in r.sockets || e.s !in r.sessions || Requested(r, e.s, e.requested).None? {
      return [];
    }
    var id := Requested(r, e.s, e.requested).value;
    ops := [LeaveOp(e.s, id)];
    ApplyOne(r.m, ops[0], now);
    var (left, participant) := Leave(r.m, e.s, id, now);
    if e.CloseChannel? && participant.Some? {
      ApplyOne(left, CloseOp(id), now);
      ApplyAllConcat(r.m, ops, [CloseOp(id)], now);
      ops := ops + [CloseOp(id)];
    }
  }

  /** Events that seat nobody and hand nothing to anybody, except that a late join answer may go out. */
  predicate Parting(e: Event) {
    !e.JoinChannel? && !e.RoomEntered? && !e.MessageSent? && !e.Readied?
  }

  lemma HandleOps(r: Relay, e: Event, now: nat) returns (ops: seq<Op>)
    requires r.m.RefsOk()
    ensures Handle(r, e, now).m == ApplyAll(r.m, ops, now)
    ensures JoinsFirst(ops) && (!e.MessageSent? ==> NoRouteIn(ops)) && (Parting(e) ==> OnlySubtract(ops))
  {
    hide OnJoin, OnRoomEntered, OnRoomLeft, OnMessage, OnLeave, OnClose, OnReady, Disconnect, Cleanup, Apply;
    match e
    case JoinChannel(_, _, _, _, _) => ops := JoiningOps(r, e, now);
    case RoomEntered(_, _) => ops := JoiningOps(r, e, now);
    case RoomLeft(_, _) => ops := JoiningOps(r, e, now);
    case MessageSent(s, id, data) => ops := OnMessageOps(r, s, id, data, now);
    case LeaveChannel(_, _) => ops := PartingOps(r, e, now);
    case CloseChannel(_, _) => ops := PartingOps(r, e, now);
    case Readied(s) => ops := OnReadyOps(r, s, now);
    case Disconnected(s) => ops := DisconnectOps(r, s, now);
    case Sweep(ids) => ops := SweepOps(r, ids, now);
    case _ => ops := [];
  }

  lemma SweepOps(r: Relay, ids: seq<ChannelId>, now: nat) returns (ops: seq<Op>)
    requires r.m.RefsOk()
    ensures Cleanup(r.m, ids, now) == ApplyAll(r.m, ops, now)
    ensures OnlySubtract(ops)
  {
    hide Cleanup;
    ops := [CleanupOp(ids)];
    ApplyOne(r.m, ops[0], now);
  }

  lemma HandleKeepsSound(r: Relay, e: Event, now: nat)
    requires r.m.RefsOk() && Sound(r.m, now)
    ensures Sound(Handle(r, e, now).m, now)
  {
    hide Sound, Handle, ApplyAll;
    var ops := HandleOps(r, e, now);
    ApplyAllKeepsSound(r.m, ops, now);
  }
}
