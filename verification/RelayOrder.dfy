/**
 Promptness across the whole relay. A live participant that has no write
 outstanding on its own channel has nothing waiting there, so a direct write
 never overtakes a buffered message. The one event that can end this is a join
 that succeeds while the socket still has a write outstanding on another
 channel object; `Traces.SwitchingReorders` is such a run that reorders messages.
 */
module RelayOrder {
  import opened Options
  import opened RelayTypes
  import opened Ledgers
  import opened ManagerSpec
  import opened ManagerSafety
  import opened ManagerOps
  import opened ManagerRouting
  import opened ManagerEffects
  import opened DeliveryOrder
  import opened ManagerOrder
  import opened ManagerAnswers
  import opened Mails
  import opened RelaySpec
  import opened RelaySafety
  import opened RelayMail

  /** The outstanding write of a seated socket, if any, is on that channel; without one, nothing waits for it. */
  ghost predicate Attended(r: Relay, id: ChannelId, s: SocketId)
    requires r.m.RefsOk() && SeatedAt(r.m, id, s)
  {
    && (s in r.m.deliveries ==> r.m.deliveries[s].channel == r.m.channels[id])
    && (s !in r.m.deliveries ==> NoneFor(r.m.At(id).buffer, r.m.At(id).participants[s]))
  }

  ghost predicate Prompt(r: Relay)
    requires r.m.RefsOk()
  {
    forall id: ChannelId, s: SocketId :: SeatedAt(r.m, id, s) && r.Alive(s) ==> Attended(r, id, s)
  }

  ghost predicate Ordered(r: Relay)
    requires r.m.RefsOk()
  {
    Prompt(r) && AllInOrder(r.m)
  }

  /** Seats, roles and channel objects only disappear, and no buffer gains a message. */
  ghost predicate Calmer(m: Manager, after: Manager)
    requires m.RefsOk() && after.RefsOk()
  {
    forall x: ChannelId, t: SocketId :: SeatedAt(after, x, t) ==>
      && SeatedAt(m, x, t)
      && after.channels[x] == m.channels[x]
      && after.At(x).participants[t] == m.At(x).participants[t]
      && (forall msg :: msg in after.At(x).buffer ==> msg in m.At(x).buffer)
  }

  /** Only sockets that are still alive afterwards need to have been attended before. */
  lemma CalmerKeepsPrompt(r: Relay, after: Relay)
    requires r.m.RefsOk() && after.m.RefsOk()
    requires forall id: ChannelId, s: SocketId :: SeatedAt(r.m, id, s) && after.Alive(s) ==> Attended(r, id, s)
    requires Calmer(r.m, after.m)
    requires forall s :: after.Alive(s) ==> (s in after.m.deliveries <==> s in r.m.deliveries)
    requires forall s :: after.Alive(s) && s in r.m.deliveries ==>
               after.m.deliveries[s].channel == r.m.deliveries[s].channel
    ensures Prompt(after)
  {
    forall id: ChannelId, s: SocketId | SeatedAt(after.m, id, s) && after.Alive(s) ensures Attended(after, id, s) {
      assert Attended(r, id, s);
    }
  }

  // ---------- Calmer operations ----------

  lemma LeaveCalms(m: Manager, s: SocketId, id: ChannelId, now: nat)
    requires m.RefsOk()
    ensures Calmer(m, Leave(m, s, id, now).0)
  {
  }

  lemma ReleaseCalms(m: Manager, s: SocketId)
    requires m.RefsOk()
    ensures Calmer(m, Release(m, s))
  {
  }

  lemma CalmerTwice(a: Manager, b: Manager, c: Manager)
    requires a.RefsOk() && b.RefsOk() && c.RefsOk() && Calmer(a, b) && Calmer(b, c)
    ensures Calmer(a, c)
  {
    forall x: ChannelId, t: SocketId | SeatedAt(c, x, t)
      ensures && SeatedAt(a, x, t)
              && c.channels[x] == a.channels[x]
              && c.At(x).participants[t] == a.At(x).participants[t]
              && (forall msg :: msg in c.At(x).buffer ==> msg in a.At(x).buffer)
    {
      assert SeatedAt(b, x, t);
    }
  }

  lemma AdvanceCalms(m: Manager, s: SocketId)
    requires m.RefsOk()
    ensures Calmer(m, Advance(m, s).0)
  {
    if s in m.deliveries {
      var ref, free := m.deliveries[s].channel, Release(m, s);
      ReleaseCalms(m, s);
      var c := m.store[ref];
      if s in c.participants && !c.terminated && FirstFor(c.buffer, c.participants[s]) < |c.buffer| {
        PromoteCalms(free, ref, s, FirstFor(c.buffer, c.participants[s]));
        hide Calmer, Promote, Release;
        CalmerTwice(m, free, Advance(m, s).0);
      }
    }
  }

  lemma PromoteCalms(m: Manager, ref: nat, s: SocketId, i: nat)
    requires m.RefsOk() && ref < |m.store| && i < |m.store[ref].buffer|
    ensures Promote(m, ref, s, i).RefsOk() && Calmer(m, Promote(m, ref, s, i))
  {
    var after := Promote(m, ref, s, i);
    assert after.store[ref].buffer == Without(m.store[ref].buffer, i);
  }

  lemma {:induction false} EvictCalms(m: Manager)
    requires m.RefsOk()
    ensures Calmer(m, EvictTombstones(m))
    decreases |m.terminatedOrder|
  {
    if |m.terminatedOrder| > MAX_TOMBSTONES {
      var oldest := m.terminatedOrder[0];
      var popped := m.(terminatedOrder := m.terminatedOrder[1..]);
      var next := if oldest in m.channels && m.At(oldest).terminated then Unmap(popped, oldest) else popped;
      EvictCalms(next);
      assert Calmer(m, next);
      CalmerTwice(m, next, EvictTombstones(m));
    }
  }

  lemma CloseCalms(m: Manager, id: ChannelId, now: nat)
    requires m.RefsOk()
    ensures Calmer(m, Close(m, id, now).0)
  {
    if id in m.channels && !m.At(id).terminated {
      var t := Terminate(m, m.channels[id], now);
      var listed := t.(terminatedOrder := t.terminatedOrder + [id]);
      assert Calmer(m, listed);
      EvictCalms(listed);
      hide Calmer, Terminate;
      CalmerTwice(m, listed, EvictTombstones(listed));
    }
  }

  lemma SweepOneCalms(m: Manager, id: ChannelId, now: nat)
    requires m.RefsOk()
    ensures Calmer(m, SweepOne(m, id, now))
  {
  }

  lemma {:induction false} SweepEachCalms(m: Manager, ids: seq<ChannelId>, now: nat)
    requires m.RefsOk()
    ensures Calmer(m, SweepEach(m, ids, now))
  {
    if ids != [] {
      var init := SweepEach(m, ids[..|ids| - 1], now);
      SweepEachCalms(m, ids[..|ids| - 1], now);
      SweepOneCalms(init, ids[|ids| - 1], now);
      CalmerTwice(m, init, SweepEach(m, ids, now));
    }
  }

  lemma CleanupCalms(m: Manager, ids: seq<ChannelId>, now: nat)
    requires m.RefsOk()
    ensures Calmer(m, Cleanup(m, ids, now))
  {
    SweepEachCalms(m, ids, now);
  }

  /** Order does not depend on sessions, listeners or the clock, and a transport may only get worse. */
  lemma SameManagerOrdered(r: Relay, after: Relay)
    requires r.m.RefsOk() && Ordered(r)
    requires after.m == r.m && (forall s :: after.Alive(s) && s in r.sessions ==> r.Alive(s))
    requires HomeSeats(r)
    ensures Ordered(after)
  {
    forall id: ChannelId, s: SocketId | SeatedAt(after.m, id, s) && after.Alive(s) ensures Attended(after, id, s) {
      assert Attended(r, id, s);
    }
  }

  // ---------- Handlers that cannot disturb the order ----------

  /** Disconnecting a socket settles the account of that socket, attended or not. */
  lemma DisconnectOrdered(r: Relay, s: SocketId, now: nat)
    requires r.m.RefsOk() && AllInOrder(r.m)
    requires forall id: ChannelId, t: SocketId :: SeatedAt(r.m, id, t) && r.Alive(t) && t != s ==> Attended(r, id, t)
    ensures Ordered(Disconnect(r, s, now))
  {
    hide AllInOrder, Calmer, Release, Leave, Attended;
    var after := Disconnect(r, s, now);
    if s in r.sockets {
      ReleaseKeepsOrder(r.m, s);
      ReleaseCalms(r.m, s);
      ReleaseEffect(r.m, s);
      if s in r.sessions && r.sessions[s].current.Some? {
        var id := r.sessions[s].current.value;
        LeaveKeepsOrder(Release(r.m, s), s, id, now);
        LeaveCalms(Release(r.m, s), s, id, now);
        LeaveEffect(Release(r.m, s), s, id, now);
        CalmerTwice(r.m, Release(r.m, s), after.m);
      }
      CalmerKeepsPrompt(r, after);
    }
  }

  lemma OnLeaveOrdered(r: Relay, s: SocketId, requested: Option<ChannelId>, now: nat)
    requires r.m.RefsOk() && Ordered(r)
    ensures Ordered(OnLeave(r, s, requested, now))
  {
    hide AllInOrder, Calmer, Leave, Attended;
    if s in r.sockets && s in r.sessions && Requested(r, s, requested).Some? {
      var id := Requested(r, s, requested).value;
      LeaveKeepsOrder(r.m, s, id, now);
      LeaveCalms(r.m, s, id, now);
      LeaveEffect(r.m, s, id, now);
      CalmerKeepsPrompt(r, OnLeave(r, s, requested, now));
    }
  }

  lemma OnCloseOrdered(r: Relay, s: SocketId, requested: Option<ChannelId>, now: nat)
    requires r.m.RefsOk() && Ordered(r)
    ensures Ordered(OnClose(r, s, requested, now).0)
  {
    hide AllInOrder, Calmer, Leave, Close, Attended;
    if s in r.sockets && s in r.sessions && Requested(r, s, requested).Some? {
      var id := Requested(r, s, requested).value;
      var left := Leave(r.m, s, id, now).0;
      LeaveKeepsOrder(r.m, s, id, now);
      LeaveCalms(r.m, s, id, now);
      LeaveEffect(r.m, s, id, now);
      CloseKeepsOrder(left, id, now);
      CloseCalms(left, id, now);
      CloseEffect(left, id, now);
      CalmerTwice(r.m, left, Close(left, id, now).0);
      CalmerKeepsPrompt(r, OnClose(r, s, requested, now).0);
    }
  }

  lemma OnRoomLeftOrdered(r: Relay, s: SocketId, ok: bool, now: nat)
    requires r.m.RefsOk() && HomeSeats(r) && Ordered(r)
    ensures Ordered(OnRoomLeft(r, s, ok, now))
  {
    hide AllInOrder, Calmer, Leave, Attended;
    if OnRoomLeft(r, s, ok, now).m == r.m {
      SameManagerOrdered(r, OnRoomLeft(r, s, ok, now));
    } else if s in r.sessions && r.sessions[s].joining.Departing? {
      var id := r.sessions[s].joining.id;
      LeaveKeepsOrder(r.m, s, id, now);
      LeaveCalms(r.m, s, id, now);
      LeaveEffect(r.m, s, id, now);
      CalmerKeepsPrompt(r, OnRoomLeft(r, s, ok, now));
    }
  }

  // ---------- The direct-delivery loop ----------

  /** When an advance finds no message, nothing waits for the socket on the channel it is seated in. */
  lemma AdvanceExhausts(r: Relay, s: SocketId, id: ChannelId, now: nat)
    requires r.m.RefsOk() && Shape(r.m, now) && s in r.m.deliveries && SeatedAt(r.m, id, s)
    requires Attended(r, id, s) && Advance(r.m, s).1.None?
    ensures NoneFor(r.m.At(id).buffer, r.m.At(id).participants[s])
  {
    assert ChanOk(r.m.At(id), now);
  }

  lemma WriteNextOrdered(r: Relay, s: SocketId, now: nat)
    requires r.m.RefsOk() && Shape(r.m, now) && Ordered(r) && r.CanArm(s) && s in r.m.deliveries
    ensures Ordered(WriteNext(r, s, now))
  {
    hide AllInOrder, Advance, Release, Shape;
    var (advanced, next) := Advance(r.m, s);
    var after := WriteNext(r, s, now);
    AdvanceKeepsOrder(r.m, s);
    AdvanceCalms(r.m, s);
    AdvanceEffect(r.m, s);
    ReleaseKeepsOrder(advanced, s);
    ReleaseCalms(advanced, s);
    ReleaseEffect(advanced, s);
    CalmerTwice(r.m, advanced, Release(advanced, s));
    forall id | SeatedAt(r.m, id, s) && next.None? ensures NoneFor(r.m.At(id).buffer, r.m.At(id).participants[s]) {
      AdvanceExhausts(r, s, id, now);
    }
    forall id: ChannelId, t: SocketId | SeatedAt(after.m, id, t) && after.Alive(t) ensures Attended(after, id, t) {
      assert SeatedAt(r.m, id, t);
      assert Attended(r, id, t);
    }
  }

  lemma OnReadyOrdered(r: Relay, s: SocketId, now: nat)
    requires r.m.RefsOk() && Shape(r.m, now) && Coherent(r) && Ordered(r)
    ensures Ordered(OnReady(r, s, now))
  {
    hide AllInOrder, Calmer, WriteNext, Release, Shape;
    var fired := r.(listeners := r.listeners - {s});
    if s in r.listeners && r.listeners[s] == Readying {
      if !r.Alive(s) {
        ReleaseKeepsOrder(r.m, s);
        ReleaseCalms(r.m, s);
        ReleaseEffect(r.m, s);
        CalmerKeepsPrompt(r, fired.(m := Release(r.m, s)));
      } else if r.sockets[s].writable {
        assert Ordered(fired) by {
          forall id: ChannelId, t: SocketId | SeatedAt(fired.m, id, t) && fired.Alive(t)
            ensures Attended(fired, id, t)
          {
            assert Attended(r, id, t);
          }
        }
        WriteNextOrdered(fired, s, now);
      }
    }
  }

  // ---------- message ----------

  /** Routing seats nobody, and only the sender's counterparty's role may gain a waiting message. */
  ghost predicate GainsOnlyFor(m: Manager, after: Manager, id: ChannelId, role: ClientType)
    requires m.RefsOk() && after.RefsOk()
  {
    && SameSeats(m, after)
    && (forall i, msg :: 0 <= i < |m.store| && msg in after.store[i].buffer ==>
          msg in m.store[i].buffer || (id in m.channels && i == m.channels[id] && msg.target == role))
  }

  lemma BufferedGains(m: Manager, ref: nat, s: SocketId, target: Option<SocketId>, msg: Message)
    requires m.RefsOk() && ref < |m.store|
    ensures var after := RouteBuffered(m, ref, s, target, msg).0;
            && (forall i :: 0 <= i < |m.store| && i != ref ==> after.store[i].buffer == m.store[i].buffer)
            && (forall x :: x in after.store[ref].buffer ==> x in m.store[ref].buffer || x == msg)
  {
  }

  lemma DirectGains(m: Manager, ref: nat, s: SocketId, target: SocketId, msg: Message)
    requires m.RefsOk() && ref < |m.store|
    ensures var after := RouteDirect(m, ref, s, target, msg).0;
            forall i :: 0 <= i < |m.store| ==> after.store[i].buffer == m.store[i].buffer
  {
  }

  lemma DispatchGains(m: Manager, ref: nat, s: SocketId, msg: Message, receivable: set<SocketId>)
    requires m.RefsOk() && ref < |m.store|
    ensures var after := Dispatch(m, ref, s, msg, receivable).0;
            && (forall i :: 0 <= i < |m.store| && i != ref ==> after.store[i].buffer == m.store[i].buffer)
            && (forall x :: x in after.store[ref].buffer ==> x in m.store[ref].buffer || x == msg)
  {
    var target := Counterpart(m.store[ref].participants, s);
    BufferedGains(m, ref, s, target, msg);
    if target.Some? {
      DirectGains(m, ref, s, target.value, msg);
    }
    DispatchEffect(m, ref, s, msg, receivable);
    hide RouteDirect, RouteBuffered;
  }

  lemma RouteGains(m: Manager, id: ChannelId, s: SocketId, data: Payload, ip: Ip, receivable: set<SocketId>, now: nat)
    requires m.RefsOk() && SeatedAt(m, id, s)
    ensures GainsOnlyFor(m, Route(m, id, s, data, ip, receivable, now).0, id, Other(m.At(id).participants[s]))
  {
    hide Dispatch;
    RouteEffect(m, id, s, data, ip, receivable, now);
    var ref, c := m.channels[id], m.At(id);
    var after := Route(m, id, s, data, ip, receivable, now).0;
    if data.bytes.Some? {
      var msg := Message(data, Other(c.participants[s]), now, data.bytes.value, ip);
      DispatchGains(m.Put(ref, c.(lastActivity := now)), ref, s, msg, receivable);
    }
  }

  /** The counterparty of an accepted buffered message is reported, so the server can drop it if it is idle. */
  lemma BufferedReportsCounterparty(m: Manager, id: ChannelId, s: SocketId, data: Payload, ip: Ip,
                                    receivable: set<SocketId>, now: nat)
    requires m.RefsOk() && SeatedAt(m, id, s)
    ensures var (after, result) := Route(m, id, s, data, ip, receivable, now);
            && (result.target.None? && result.backpressured != Counterpart(m.At(id).participants, s) ==>
                  forall i :: 0 <= i < |m.store| ==> after.store[i].buffer == m.store[i].buffer)
            && (result.target.Some? ==>
                  && result.target == Counterpart(m.At(id).participants, s)
                  && forall i :: 0 <= i < |m.store| ==> after.store[i].buffer == m.store[i].buffer)
  {
    var ref, c := m.channels[id], m.At(id);
    if data.bytes.Some? {
      var msg := Message(data, Other(c.participants[s]), now, data.bytes.value, ip);
      var touched := m.Put(ref, c.(lastActivity := now));
      var target := Counterpart(c.participants, s);
      if target.Some? {
        DirectGains(touched, ref, s, target.value, msg);
      }
    }
  }

  /** The counterparty's outstanding write decides whether it is attended after the message is buffered. */
  lemma MessageAttends(r: Relay, s: SocketId, id: ChannelId, data: Payload, now: nat, x: ChannelId, u: SocketId)
    requires r.m.RefsOk() && Shape(r.m, now) && HomeSeats(r) && Prompt(r)
    requires s in r.sessions && SeatedAt(r.m, id, s) && SeatedAt(r.m, x, u) && r.Alive(u)
    requires var result := Route(r.m, id, s, data, r.sessions[s].ip, r.Receivable(), now).1;
             result.backpressured == Some(u) ==> u in r.m.deliveries
    ensures var (m', result) := Route(r.m, id, s, data, r.sessions[s].ip, r.Receivable(), now);
            SameSeats(r.m, m') && Attended(r.(m := m'), x, u)
  {
    var parts := r.m.At(id).participants;
    assert ChanOk(r.m.At(id), now);
    assert Attended(r, x, u);
    var (m', result) := Route(r.m, id, s, data, r.sessions[s].ip, r.Receivable(), now);
    RouteGains(r.m, id, s, data, r.sessions[s].ip, r.Receivable(), now);
    RouteReserves(r.m, id, s, data, r.sessions[s].ip, r.Receivable(), now);
    BufferedReportsCounterparty(r.m, id, s, data, r.sessions[s].ip, r.Receivable(), now);
    CounterpartTakesOtherRole(parts, s);
    hide Route, ChanOk;
    if x == id {
      assert u == s || Counterpart(parts, s) == Some(u);
    } else {
      assert r.m.channels[x] != r.m.channels[id];
      assert result.target != Some(u);
    }
  }

  lemma UnseatedSenderChangesNothing(r: Relay, s: SocketId, id: ChannelId, data: Payload, now: nat)
    requires r.m.RefsOk() && !SeatedAt(r.m, id, s)
    ensures OnMessage(r, s, id, data, now).0 == r
  {
  }

  /** Where nothing waits for an idle live participant, no message is written past a waiting one. */
  lemma PromptNeverPasses(r: Relay, s: SocketId, id: ChannelId, data: Payload, now: nat)
    requires r.m.RefsOk() && Shape(r.m, now) && Prompt(r) && s in r.sessions
    ensures !PassesWaiting(r.m, id, s, data, r.sessions[s].ip, r.Receivable(), now)
  {
    forall t: SocketId | SeatedAt(r.m, id, t) && t in r.Receivable() && t !in r.m.deliveries
      ensures NoneFor(r.m.At(id).buffer, r.m.At(id).participants[t])
    {
      assert Attended(r, id, t);
    }
    if SeatedAt(r.m, id, s) {
      assert ChanOk(r.m.At(id), now);
      CounterpartTakesOtherRole(r.m.At(id).participants, s);
    }
  }

  lemma OnMessageOrdered(r: Relay, s: SocketId, id: ChannelId, data: Payload, now: nat)
    requires r.m.RefsOk() && Shape(r.m, now) && Tidy(r) && Ordered(r)
    ensures Ordered(OnMessage(r, s, id, data, now).0)
  {
    if !SeatedAt(r.m, id, s) {
      UnseatedSenderChangesNothing(r, s, id, data, now);
    } else if s in r.sockets {
      PromptNeverPasses(r, s, id, data, now);
      RouteKeepsOrderIff(r.m, id, s, data, r.sessions[s].ip, r.Receivable(), now);
      SeatedMessageOrdered(r, s, id, data, now);
    }
  }

  lemma SeatedMessageOrdered(r: Relay, s: SocketId, id: ChannelId, data: Payload, now: nat)
    requires r.m.RefsOk() && Shape(r.m, now) && Tidy(r) && Ordered(r)
    requires s in r.sockets && s in r.sessions && SeatedAt(r.m, id, s)
    requires AllInOrder(Route(r.m, id, s, data, r.sessions[s].ip, r.Receivable(), now).0)
    ensures Ordered(OnMessage(r, s, id, data, now).0)
  {
    hide Route, AllInOrder, Shape, Disconnect, Attended, Post;
    var (m', result) := Route(r.m, id, s, data, r.sessions[s].ip, r.Receivable(), now);
    var routed := r.(m := m');
    RouteEffect(r.m, id, s, data, r.sessions[s].ip, r.Receivable(), now);
    RouteReserves(r.m, id, s, data, r.sessions[s].ip, r.Receivable(), now);
    DirectTargetArms(r, s, id, data, now);
    forall x: ChannelId, u: SocketId
      | SeatedAt(m', x, u) && r.Alive(u) && (result.backpressured == Some(u) ==> u in r.m.deliveries)
      ensures Attended(routed, x, u)
    {
      MessageAttends(r, s, id, data, now, x, u);
    }
    if result.target.Some? {
      DirectMessage(r, s, id, data, now);
      var after := OnMessage(r, s, id, data, now).0;
      forall x: ChannelId, u: SocketId | SeatedAt(after.m, x, u) && after.Alive(u) ensures Attended(after, x, u) {
        assert Attended(routed, x, u);
        AttendedIgnoresListeners(routed, after, x, u);
      }
    } else if result.backpressured.Some? && result.backpressured.value !in m'.deliveries {
      DisconnectOrdered(routed, result.backpressured.value, now);
    }
  }

  lemma AttendedIgnoresListeners(r: Relay, after: Relay, x: ChannelId, u: SocketId)
    requires r.m.RefsOk() && after.m == r.m && SeatedAt(r.m, x, u) && Attended(r, x, u)
    ensures Attended(after, x, u)
  {
  }

  // ---------- join ----------

  /** A live socket whose write is outstanding on another channel object than the one `id` names. */
  ghost predicate Foreign(r: Relay, s: SocketId, id: ChannelId) {
    && r.Alive(s)
    && s in r.m.deliveries
    && !(id in r.m.channels && r.m.channels[id] == r.m.deliveries[s].channel)
  }

  lemma JoinedAttends(r: Relay, s: SocketId, id: ChannelId, role: ClientType, offer: KeyOffer, now: nat)
    requires r.m.RefsOk() && Sound(r.m, now) && Tidy(r) && Prompt(r) && s in r.sessions
    requires var result := SeatResult(r, s, id, role, offer, now).1; !(Seated(result) && Foreign(r, s, id))
    ensures Prompt(r.(m := SeatResult(r, s, id, role, offer, now).0))
  {
    hide Join, Sound, Shape, Attended, RoleUnique;
    var (m', result) := SeatResult(r, s, id, role, offer, now);
    var after := r.(m := m');
    var ip := Some(r.sessions[s].ip);
    SoundShape(r.m, now);
    JoinEffect(r.m, id, s, role, offer, ip, r.sockets.Keys, now);
    JoinCalms(r.m, id, s, role, offer, ip, r.sockets.Keys, now);
    JoinKeepsObjects(r.m, id, s, role, offer, ip, r.sockets.Keys, now);
    assert m'.deliveries == r.m.deliveries;
    forall x: ChannelId, u: SocketId | SeatedAt(m', x, u) && after.Alive(u) ensures Attended(after, x, u) {
      if Seated(result) && x == id && u == s {
        SeatedAttends(r, after, s, id, role);
      } else {
        assert Attended(r, x, u);
        CalmAttends(r, after, x, u);
      }
    }
  }

  /** A socket seated without a foreign write, and with its queue emptied, is attended. */
  lemma SeatedAttends(r: Relay, after: Relay, s: SocketId, id: ChannelId, role: ClientType)
    requires r.m.RefsOk() && after.m.RefsOk() && SeatedAt(after.m, id, s) && r.Alive(s) && !Foreign(r, s, id)
    requires after.m.deliveries == r.m.deliveries && SeatedWith(after.m, after.m.channels[id], s, role)
    requires forall x :: x in r.m.channels ==> x in after.m.channels && after.m.channels[x] == r.m.channels[x]
    ensures Attended(after, id, s)
  {
    NoneForIsEmpty(after.m.At(id).buffer, role);
  }

  lemma CalmAttends(r: Relay, after: Relay, x: ChannelId, u: SocketId)
    requires r.m.RefsOk() && after.m.RefsOk() && SeatedAt(r.m, x, u) && SeatedAt(after.m, x, u) && Attended(r, x, u)
    requires after.m.deliveries == r.m.deliveries && after.m.channels[x] == r.m.channels[x]
    requires after.m.At(x).participants[u] == r.m.At(x).participants[u]
    requires forall msg :: msg in after.m.At(x).buffer ==> msg in r.m.At(x).buffer
    ensures Attended(after, x, u)
  {
  }

  lemma LeaveElsewhereKeepsSeat(m: Manager, s: SocketId, prev: ChannelId, now: nat, id: ChannelId)
    requires Shape(m, now) && SeatedAt(m, id, s) && id != prev
    ensures SeatedAt(Leave(m, s, prev, now).0, id, s)
  {
    LeaveKeepsOthers(m, s, prev, now, id);
    LeaveEffect(m, s, prev, now);
  }

  lemma SoundShape(m: Manager, now: nat)
    requires Sound(m, now)
    ensures Shape(m, now)
  {
  }

  /** Seating a socket with a foreign write leaves it unattended on its new channel. */
  lemma ForeignSeatUnattended(r: Relay, s: SocketId, id: ChannelId, role: ClientType, offer: KeyOffer,
                              switching: bool, inRoom: bool, wantsAck: bool, now: nat)
    requires r.m.RefsOk() && Sound(r.m, now) && Tidy(r) && s in r.sessions
    requires r.sessions[s].current == Some(id) ==> !switching
    requires Seated(SeatResult(r, s, id, role, offer, now).1) && Foreign(r, s, id)
    ensures !Prompt(Seat(r, s, id, role, offer, switching, inRoom, wantsAck, now))
  {
    hide Join, Leave, Sound, Shape;
    var (m', result) := SeatResult(r, s, id, role, offer, now);
    var after := Seat(r, s, id, role, offer, switching, inRoom, wantsAck, now);
    var session := r.sessions[s];
    SoundShape(r.m, now);
    JoinKeepsSound(r.m, id, s, role, offer, Some(session.ip), r.sockets.Keys, now);
    SoundShape(m', now);
    JoinEffect(r.m, id, s, role, offer, Some(session.ip), r.sockets.Keys, now);
    JoinKeepsObjects(r.m, id, s, role, offer, Some(session.ip), r.sockets.Keys, now);
    if switching && session.current.Some? {
      LeaveElsewhereKeepsSeat(m', s, session.current.value, now, id);
      LeaveEffect(m', s, session.current.value, now);
    }
    assert SeatedAt(after.m, id, s);
    assert r.m.deliveries[s].channel < |r.m.store|;
    assert !Attended(after, id, s);
  }

  /** The synchronous middle of a join keeps the order exactly when it does not seat a foreign writer. */
  lemma SeatOrderedIff(r: Relay, s: SocketId, id: ChannelId, role: ClientType, offer: KeyOffer,
                       switching: bool, inRoom: bool, wantsAck: bool, now: nat)
    requires r.m.RefsOk() && Inv(r, now) && Ordered(r) && s in r.sessions
    requires r.sessions[s].current == Some(id) ==> !switching
    ensures Ordered(Seat(r, s, id, role, offer, switching, inRoom, wantsAck, now)) <==>
            !(Seated(SeatResult(r, s, id, role, offer, now).1) && Foreign(r, s, id))
  {
    var (m', result) := SeatResult(r, s, id, role, offer, now);
    var after := Seat(r, s, id, role, offer, switching, inRoom, wantsAck, now);
    var session := r.sessions[s];
    if Seated(result) && Foreign(r, s, id) {
      hide Foreign, Seat, SeatResult, Prompt, AllInOrder;
      ForeignSeatUnattended(r, s, id, role, offer, switching, inRoom, wantsAck, now);
    } else {
      JoinKeepsOrder(r.m, id, s, role, offer, Some(session.ip), r.sockets.Keys, now);
      JoinedAttends(r, s, id, role, offer, now);
      hide Post, BatchStanding, Join, Leave, Calmer, AllInOrder, Foreign, Inv, Attended;
      if session.current.Some? {
        LeaveKeepsOrder(m', s, session.current.value, now);
        LeaveCalms(m', s, session.current.value, now);
        LeaveEffect(m', s, session.current.value, now);
      }
      if Seated(result) && switching && session.current.Some? {
        CalmerKeepsPrompt(r.(m := m'), after);
      } else {
        PromptIgnoresSessions(r.(m := m'), after);
      }
    }
  }

  lemma PromptIgnoresSessions(r: Relay, after: Relay)
    requires r.m.RefsOk() && Prompt(r) && after.m == r.m && after.sockets == r.sockets
    ensures Prompt(after)
  {
    forall id: ChannelId, s: SocketId | SeatedAt(after.m, id, s) && after.Alive(s) ensures Attended(after, id, s) {
      assert Attended(r, id, s);
    }
  }

  // ---------- Every event, and every run ----------

  /** This event seats a live socket that still has a write outstanding on another channel object. */
  ghost predicate EntersForeign(r: Relay, e: Event, now: nat)
    requires r.m.RefsOk()
  {
    match e
    case JoinChannel(s, id, role, offer, wantsAck) =>
      && s in r.sockets && s in r.sessions
      && r.sessions[s].joining.Idle? && r.sessions[s].current == Some(id)
      && !(id !in r.m.channels && |LiveIds(r.m)| >= r.m.limits.maxActiveChannels)
      && AdmitsJoin(r, s, id, role, offer)
      && Foreign(r, s, id)
    case RoomEntered(s, ok) =>
      && ok && s in r.sessions && r.sessions[s].joining.Entering?
      && var j := r.sessions[s].joining;
         AdmitsJoin(r, s, j.id, j.role, j.offer) && Foreign(r, s, j.id)
    case _ => false
  }

  lemma InvFacts(r: Relay, now: nat)
    requires Inv(r, now)
    ensures HomeSeats(r) && Shape(r.m, now)
    ensures forall s :: s in r.sessions ==> Entrance(r.sessions[s])
  {
  }

  lemma JoiningOrderedIff(r: Relay, e: Event, now: nat)
    requires r.m.RefsOk() && Inv(r, now) && Ordered(r) && (e.JoinChannel? || e.RoomEntered?)
    ensures Ordered(Handle(r, e, now)) <==> !EntersForeign(r, e, now)
  {
    hide Inv, Ordered, Seat, SeatResult, AdmitsJoin, Foreign, HomeSeats, Shape;
    InvFacts(r, now);
    if Handle(r, e, now).m == r.m && Handle(r, e, now).sockets == r.sockets {
      SameManagerOrdered(r, Handle(r, e, now));
    }
    if e.s in r.sessions {
      var session := r.sessions[e.s];
      assert Entrance(session);
      if e.JoinChannel? && session.joining.Idle? && session.current == Some(e.id) {
        SeatOrderedIff(r, e.s, e.id, e.role, e.offer, false, false, e.wantsAck, now);
        SeatedIffAdmitted(r, e.s, e.id, e.role, e.offer, now);
      }
      if e.RoomEntered? && session.joining.Entering? {
        var j := session.joining;
        SeatOrderedIff(r, e.s, j.id, j.role, j.offer, j.switching, true, j.wantsAck, now);
        SeatedIffAdmitted(r, e.s, j.id, j.role, j.offer, now);
      }
    }
  }

  /** One event keeps handover in order exactly when it does not seat a socket with a foreign write. */
  lemma HandleOrderedIff(r: Relay, e: Event, now: nat)
    requires r.m.RefsOk() && Inv(r, now) && Ordered(r)
    ensures Ordered(Handle(r, e, now)) <==> !EntersForeign(r, e, now)
  {
    assert Shape(r.m, now) && Sound(r.m, now) && Tidy(r);
    if e.JoinChannel? || e.RoomEntered? {
      JoiningOrderedIff(r, e, now);
    } else {
      hide Ordered, Sound, Shape, OnRoomLeft, OnMessage, OnLeave, OnClose, OnReady, Disconnect, Cleanup;
      QuietEventOrdered(r, e, now);
    }
  }

  lemma SweepOrdered(r: Relay, ids: seq<ChannelId>, now: nat)
    requires r.m.RefsOk() && Sound(r.m, now) && Ordered(r)
    ensures Ordered(r.(m := Cleanup(r.m, ids, now)))
  {
    hide Sound, Cleanup, AllInOrder, Calmer;
    CleanupKeepsOrder(r.m, ids, now);
    CleanupCalms(r.m, ids, now);
    CleanupEffect(r.m, ids, now);
    CalmerKeepsPrompt(r, r.(m := Cleanup(r.m, ids, now)));
  }

  /** Connecting, a change of a transport and a drain leave the manager alone. */
  lemma TransportOrdered(r: Relay, e: Event, now: nat)
    requires r.m.RefsOk() && HomeSeats(r) && Ordered(r) && (e.Connected? || e.Transport? || e.Drained?)
    ensures Ordered(Handle(r, e, now))
  {
    hide Ordered, HomeSeats;
    SameManagerOrdered(r, Handle(r, e, now));
  }

  lemma GoneOrdered(r: Relay, s: SocketId, now: nat)
    requires r.m.RefsOk() && Ordered(r)
    ensures Ordered(Disconnect(r, s, now))
  {
    hide Disconnect, Attended, AllInOrder;
    DisconnectOrdered(r, s, now);
  }

  lemma PartingOrdered(r: Relay, e: Event, now: nat)
    requires r.m.RefsOk() && Sound(r.m, now) && HomeSeats(r) && Ordered(r)
    requires e.RoomLeft? || e.LeaveChannel? || e.CloseChannel? || e.Disconnected? || e.Sweep?
    ensures Ordered(Handle(r, e, now))
  {
    hide Sound, HomeSeats, Ordered, OnRoomLeft, OnLeave, OnClose, Disconnect, Cleanup;
    match e
    case RoomLeft(s, ok) => OnRoomLeftOrdered(r, s, ok, now);
    case LeaveChannel(s, requested) => OnLeaveOrdered(r, s, requested, now);
    case CloseChannel(s, requested) => OnCloseOrdered(r, s, requested, now);
    case Disconnected(s) => GoneOrdered(r, s, now);
    case Sweep(ids) => SweepOrdered(r, ids, now);
  }

  lemma WritingOrdered(r: Relay, e: Event, now: nat)
    requires r.m.RefsOk() && Shape(r.m, now) && Tidy(r) && Coherent(r) && Ordered(r) && (e.MessageSent? || e.Readied?)
    ensures Ordered(Handle(r, e, now))
  {
    hide Shape, Tidy, Coherent, Ordered, OnMessage, OnReady;
    match e
    case MessageSent(s, id, data) => OnMessageOrdered(r, s, id, data, now);
    case Readied(s) => OnReadyOrdered(r, s, now);
  }

  lemma QuietEventOrdered(r: Relay, e: Event, now: nat)
    requires r.m.RefsOk() && Sound(r.m, now) && Shape(r.m, now) && Tidy(r) && Ordered(r)
    requires !e.JoinChannel? && !e.RoomEntered?
    ensures Ordered(Handle(r, e, now))
  {
    assert Coherent(r) && HomeSeats(r);
    hide Sound, Shape, Tidy, Coherent, HomeSeats, Ordered, Handle;
    if e.MessageSent? || e.Readied? {
      WritingOrdered(r, e, now);
    } else if e.Connected? || e.Transport? || e.Drained? {
      TransportOrdered(r, e, now);
    } else {
      PartingOrdered(r, e, now);
    }
  }

  /** No event of the run seats a socket with a foreign write. */
  ghost predicate NeverForeign(r: Relay, run: seq<Timed>)
    requires r.m.RefsOk()
  {
    run == [] ||
    (var before, last := Run(r, run[..|run| - 1]), run[|run| - 1];
     NeverForeign(r, run[..|run| - 1]) && !EntersForeign(before, last.event, before.clock + last.elapsed))
  }

  lemma StepOrderedIff(r: Relay, t: Timed)
    requires r.m.RefsOk() && Inv(r, r.clock) && Ordered(r)
    ensures Ordered(Step(r, t)) <==> !EntersForeign(r, t.event, r.clock + t.elapsed)
  {
    hide Inv, EntersForeign, Handle, AllInOrder, Attended;
    var now := r.clock + t.elapsed;
    InvLater(r, r.clock, now);
    var handled := Handle(r, t.event, now);
    HandleOrderedIff(r, t.event, now);
    assert Step(r, t) == handled.(clock := now);
    if Prompt(handled) {
      PromptIgnoresSessions(handled, Step(r, t));
    }
    if Prompt(Step(r, t)) {
      PromptIgnoresSessions(Step(r, t), handled);
    }
  }

  lemma EmptyOrdered(limits: Limits)
    ensures Ordered(EmptyRelay(limits))
  {
  }

  /** Over every run without a foreign seat, nothing waits for an idle live participant and no queue is reordered. */
  lemma {:induction false} RunOrdered(limits: Limits, run: seq<Timed>)
    requires NeverForeign(EmptyRelay(limits), run)
    ensures Ordered(Run(EmptyRelay(limits), run))
  {
    hide Ordered, Inv, EntersForeign, Step;
    if run == [] {
      EmptyOrdered(limits);
    } else {
      var init := run[..|run| - 1];
      RunOrdered(limits, init);
      RunKeepsInv(limits, init);
      StepOrderedIff(Run(EmptyRelay(limits), init), run[|run| - 1]);
    }
  }
}
