/**
 No reservation is ever overwritten. An event leaves a socket's outstanding
 write alone, takes it away together with the listener that waits for it, or,
 when the socket's own transport is ready, replaces it by the next message
 waiting for that socket. Only a direct write gives a socket a reservation, and
 only one that had none.
 */
module RelayReservations {
  import opened Options
  import opened RelayTypes
  import opened ManagerSpec
  import opened ManagerSafety
  import opened ManagerEffects
  import opened ManagerAnswers
  import opened DeliveryOrder
  import opened RelaySpec
  import opened RelaySafety
  import opened RelayHistory
  import opened RelayMail

  /** The outstanding write is untouched, and still listened for. */
  ghost predicate Keeps(r: Relay, after: Relay, t: SocketId) {
    && t in r.m.deliveries && t in after.m.deliveries && t in after.listeners
    && after.m.deliveries[t] == r.m.deliveries[t]
  }

  /** The outstanding write is gone, and its listener with it. */
  ghost predicate Frees(r: Relay, after: Relay, t: SocketId) {
    t in r.m.deliveries && t !in after.m.deliveries && t !in after.listeners
  }

  /** The oldest message waiting for the socket on the channel of its write takes the place of that write. */
  ghost predicate Replaces(r: Relay, e: Event, after: Relay, t: SocketId)
    requires r.m.RefsOk()
  {
    && e == Readied(t) && Promotes(r, t)
    && t in after.m.deliveries && t in after.listeners && after.listeners[t] == Draining
    && var ref := r.m.deliveries[t].channel;
       var c := r.m.store[ref];
       var i := FirstFor(c.buffer, c.participants[t]);
       i < |c.buffer| && after.m.deliveries[t] == Reservation(ref, c.buffer[i].sourceIp, c.buffer[i].size)
  }

  /** A direct write reserves a socket that could take it. */
  ghost predicate Reserves(r: Relay, e: Event, after: Relay, t: SocketId)
    requires r.m.RefsOk()
  {
    && t !in r.m.deliveries && r.CanArm(t)
    && e.MessageSent? && t != e.s && e.s in r.sessions
    && WritesNow(r.m, e.id, e.s, e.data, r.sessions[e.s].ip, r.Receivable()) && SeatedAt(r.m, e.id, t)
    && t in after.m.deliveries && t in after.listeners && after.listeners[t] == Draining
    && after.m.deliveries[t] == Reservation(r.m.channels[e.id], r.sessions[e.s].ip, e.data.bytes.value)
  }

  ghost predicate Accounts(r: Relay, e: Event, after: Relay, t: SocketId)
    requires r.m.RefsOk()
  {
    if t in r.m.deliveries then Keeps(r, after, t) || Frees(r, after, t) || Replaces(r, e, after, t)
    else t in after.m.deliveries ==> Reserves(r, e, after, t)
  }

  // ---------- One event ----------

  lemma AdvanceReserves(m: Manager, s: SocketId)
    requires m.RefsOk() && Advance(m, s).1.Some?
    ensures s in m.deliveries && s in Advance(m, s).0.deliveries
    ensures var ref := m.deliveries[s].channel;
            var c := m.store[ref];
            && s in c.participants
            && var i := FirstFor(c.buffer, c.participants[s]);
               && i < |c.buffer|
               && Advance(m, s).0.deliveries[s] == Reservation(ref, c.buffer[i].sourceIp, c.buffer[i].size)
  {
    var ref := m.deliveries[s].channel;
    var c := m.store[ref];
    ReleaseLeaves(m, s, ref);
    PromoteLeaves(Release(m, s), ref, s, FirstFor(c.buffer, c.participants[s]));
    hide Release, Promote;
  }

  lemma ReadyAccounts(r: Relay, s: SocketId, now: nat, t: SocketId)
    requires r.m.RefsOk() && Coherent(r) && Coherent(OnReady(r, s, now))
    ensures Accounts(r, Readied(s), OnReady(r, s, now), t)
  {
    hide OnReady, Advance, NoneFor, Release, FirstFor;
    if s in r.listeners && r.listeners[s] == Readying {
      OnReadyOutcome(r, s, now);
      AdvancesIff(r, s);
      if Advance(r.m, s).1.Some? {
        AdvanceReserves(r.m, s);
      }
    } else {
      NotReadyYet(r, s, now);
    }
  }

  lemma NotReadyYet(r: Relay, s: SocketId, now: nat)
    requires r.m.RefsOk() && !(s in r.listeners && r.listeners[s] == Readying)
    ensures OnReady(r, s, now) == r
  {
  }

  lemma DisconnectDeliveries(r: Relay, s: SocketId, now: nat)
    requires r.m.RefsOk()
    ensures Disconnect(r, s, now).m.deliveries == r.m.deliveries ||
            Disconnect(r, s, now).m.deliveries == r.m.deliveries - {s}
  {
    hide Release, Leave;
    ReleaseEffect(r.m, s);
    if s in r.sessions && r.sessions[s].current.Some? {
      LeaveEffect(Release(r.m, s), s, r.sessions[s].current.value, now);
    }
  }

  lemma MessageAccounts(r: Relay, s: SocketId, id: ChannelId, data: Payload, now: nat, t: SocketId)
    requires r.m.RefsOk() && Shape(r.m, now) && Tidy(r) && Coherent(OnMessage(r, s, id, data, now).0)
    ensures Accounts(r, MessageSent(s, id, data), OnMessage(r, s, id, data, now).0, t)
  {
    hide Route, Shape, Disconnect, WritesNow, HomeSeats, Post;
    if s in r.sockets && s in r.sessions {
      var (m', result) := Route(r.m, id, s, data, r.sessions[s].ip, r.Receivable(), now);
      RouteReserves(r.m, id, s, data, r.sessions[s].ip, r.Receivable(), now);
      WritesDirectlyIff(r.m, id, s, data, r.sessions[s].ip, r.Receivable(), now);
      if result.target.Some? {
        DirectMessage(r, s, id, data, now);
      } else if result.backpressured.Some? && result.backpressured.value !in m'.deliveries {
        DisconnectDeliveries(r.(m := m'), result.backpressured.value, now);
      }
    }
  }

  lemma JoiningKeepsDeliveries(r: Relay, e: Event, now: nat)
    requires r.m.RefsOk() && Shape(r.m, now) && Coherent(r) && (e.JoinChannel? || e.RoomEntered?)
    ensures Handle(r, e, now).m.deliveries == r.m.deliveries
  {
    hide Seat, Shape;
    if e.s in r.sessions {
      var session := r.sessions[e.s];
      var j := session.joining;
      if e.JoinChannel? {
        SeatKeepsReservations(r, e.s, e.id, e.role, e.offer, false, false, e.wantsAck, now);
      } else if j.Entering? {
        SeatKeepsReservations(r, e.s, j.id, j.role, j.offer, j.switching, true, j.wantsAck, now);
      }
    }
  }

  /** Leaving a room, leaving or closing a channel and the sweep touch no reservation. */
  lemma PartingKeepsDeliveries(r: Relay, e: Event, now: nat)
    requires r.m.RefsOk() && (e.RoomLeft? || e.LeaveChannel? || e.CloseChannel? || e.Sweep?)
    ensures Handle(r, e, now).m.deliveries == r.m.deliveries
  {
    hide Leave, Close, Cleanup;
    match e
    case RoomLeft(s, ok) =>
      if s in r.sessions && r.sessions[s].joining.Departing? {
        LeaveEffect(r.m, s, r.sessions[s].joining.id, now);
      }
    case Sweep(ids) => CleanupEffect(r.m, ids, now);
    case LeaveChannel(s, requested) =>
      if s in r.sessions && Requested(r, s, requested).Some? {
        LeaveEffect(r.m, s, Requested(r, s, requested).value, now);
      }
    case CloseChannel(s, requested) =>
      if s in r.sessions && Requested(r, s, requested).Some? {
        var id := Requested(r, s, requested).value;
        LeaveEffect(r.m, s, id, now);
        CloseEffect(Leave(r.m, s, id, now).0, id, now);
      }
    case _ =>
  }

  lemma FewerAccounts(r: Relay, e: Event, after: Relay, s: SocketId, t: SocketId)
    requires r.m.RefsOk() && Coherent(after)
    requires after.m.deliveries == r.m.deliveries || after.m.deliveries == r.m.deliveries - {s}
    ensures Accounts(r, e, after, t)
  {
    hide Replaces, Reserves;
  }

  lemma QuietKeepsDeliveries(r: Relay, e: Event, now: nat)
    requires r.m.RefsOk() && (e.Connected? || e.Transport? || e.Drained?)
    ensures Handle(r, e, now).m.deliveries == r.m.deliveries
  {
  }

  /** Every event accounts for every socket's outstanding write. */
  lemma HandleAccounts(r: Relay, e: Event, now: nat, t: SocketId)
    requires r.m.RefsOk() && Inv(r, now)
    ensures Accounts(r, e, Handle(r, e, now), t)
  {
    assert Shape(r.m, now) && Tidy(r) && Coherent(r);
    HandleTidy(r, e, now);
    var after := Handle(r, e, now);
    assert Coherent(after);
    hide Shape, Sound, Tidy, Coherent, Accounts;
    match e
    case MessageSent(s, id, data) => MessageAccounts(r, s, id, data, now, t);
    case Readied(s) => ReadyAccounts(r, s, now, t);
    case Disconnected(s) =>
      DisconnectDeliveries(r, s, now);
      FewerAccounts(r, e, after, s, t);
    case _ =>
      UntouchedDeliveries(r, e, now);
      FewerAccounts(r, e, after, 0, t);
  }

  lemma UntouchedDeliveries(r: Relay, e: Event, now: nat)
    requires r.m.RefsOk() && Shape(r.m, now) && Coherent(r)
    requires !e.MessageSent? && !e.Readied? && !e.Disconnected?
    ensures Handle(r, e, now).m.deliveries == r.m.deliveries
  {
    hide Handle, Shape, Coherent;
    if e.JoinChannel? || e.RoomEntered? {
      JoiningKeepsDeliveries(r, e, now);
    } else if e.Connected? || e.Transport? || e.Drained? {
      QuietKeepsDeliveries(r, e, now);
    } else {
      PartingKeepsDeliveries(r, e, now);
    }
  }

  // ---------- Every run ----------

  /** In every run, each event accounts for every socket's outstanding write. */
  lemma RunAccounts(limits: Limits, run: seq<Timed>, k: nat, t: SocketId)
    requires k < |run|
    ensures Accounts(StateAt(limits, run, k), run[k].event, StateAt(limits, run, k + 1), t)
  {
    hide StateAt, Inv, Handle, Accounts;
    var r := StateAt(limits, run, k);
    var now := r.clock + run[k].elapsed;
    StateAtInv(limits, run, k);
    StateNext(limits, run, k);
    InvLater(r, r.clock, now);
    HandleAccounts(r, run[k].event, now, t);
    ClockAccounts(r, run[k].event, Handle(r, run[k].event, now), now, t);
  }

  lemma ClockAccounts(r: Relay, e: Event, after: Relay, now: nat, t: SocketId)
    requires r.m.RefsOk() && Accounts(r, e, after, t)
    ensures Accounts(r, e, after.(clock := now), t)
  {
  }

  /** The socket has a write outstanding in every state from `i` to `j`, and its transport is not ready in between. */
  ghost predicate Outstanding(limits: Limits, run: seq<Timed>, i: nat, j: nat, t: SocketId)
    requires j <= |run|
  {
    && (forall k: nat :: i <= k <= j ==> t in StateAt(limits, run, k).m.deliveries)
    && (forall k: nat :: i <= k < j ==> run[k].event != Readied(t))
  }

  /** Until its transport is ready, an outstanding write that is not released stays the same write. */
  lemma {:induction false} OutstandingIsSame(limits: Limits, run: seq<Timed>, i: nat, j: nat, t: SocketId)
    requires i <= j <= |run| && Outstanding(limits, run, i, j, t)
    ensures t in StateAt(limits, run, i).m.deliveries && t in StateAt(limits, run, j).m.deliveries
    ensures StateAt(limits, run, j).m.deliveries[t] == StateAt(limits, run, i).m.deliveries[t]
    decreases j
  {
    hide StateAt, Promotes;
    if i < j {
      OutstandingIsSame(limits, run, i, j - 1, t);
      RunAccounts(limits, run, j - 1, t);
    }
  }
}
