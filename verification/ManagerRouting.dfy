/** Routing, promotion and the periodic sweep keep `Sound` too. */
module ManagerRouting {
  import opened Options
  import opened RelayTypes
  import opened Ledgers
  import opened ManagerSpec
  import opened Conservation
  import opened ManagerSafety
  import opened ManagerOps

  // ---------- routeMessage ----------

  lemma SequencedKeepsBody(m: Manager, ref: nat, s: SocketId, seqNo: Option<nat>, now: nat)
    requires Body(m, now) && ref < |m.store| && s in m.store[ref].participants
    ensures Body(Sequenced(m, ref, s, seqNo), now)
  {
    if seqNo.Some? {
      BodyFacts(m, ref, now);
      assert ChanOk(Sequenced(m, ref, s, seqNo).store[ref], now);
      PutKeepsBody(m, ref, Sequenced(m, ref, s, seqNo).store[ref], now);
    }
  }

  lemma ReserveKeepsOpen(m: Manager, ref: nat, target: SocketId, r: Reservation<nat>, s: SocketId)
    requires Open(m, ref) && s in m.store[ref].participants && r.channel == ref
    ensures Open(Reserve(m, target, r), ref) && s in Reserve(m, target, r).store[ref].participants
  {
  }

  /** Recording a message as accepted and handed over at once. */
  lemma LogKeepsBody(m: Manager, ref: nat, msg: Message, s: SocketId, now: nat)
    requires Body(m, now) && Open(m, ref) && s in m.store[ref].participants
    ensures var c := m.store[ref];
            var logged := m.Put(ref, c.(accepted := c.accepted + [msg], settled := c.settled + Tag([msg], Handed)));
            Body(logged, now) && Open(logged, ref) && s in logged.store[ref].participants
  {
    var c := m.store[ref];
    var logged := c.(accepted := c.accepted + [msg], settled := c.settled + Tag([msg], Handed));
    BodyFacts(m, ref, now);
    hide Body;
    PlainTag(c.settled, [msg], Handed);
    assert ChanOk(logged, now);
    PutKeepsBody(m, ref, logged, now);
  }

  lemma RouteDirectKeeps(m: Manager, ref: nat, s: SocketId, target: SocketId, msg: Message, now: nat)
    requires Body(m, now) && Open(m, ref) && s in m.store[ref].participants
    requires FitsDirectly(m, ref, target, msg.size, msg.sourceIp)
    ensures Body(RouteDirect(m, ref, s, target, msg).0, now)
  {
    hide Body, Reserve, Fits, Sequenced, ChanOk;
    var r := Reserve(m, target, Reservation(ref, msg.sourceIp, msg.size));
    ReserveKeepsBody(m, target, Reservation(ref, msg.sourceIp, msg.size), now);
    ReserveKeepsOpen(m, ref, target, Reservation(ref, msg.sourceIp, msg.size), s);
    LogKeepsBody(r, ref, msg, s, now);
    var c := r.store[ref];
    var logged := c.(accepted := c.accepted + [msg], settled := c.settled + Tag([msg], Handed));
    SequencedKeepsBody(r.Put(ref, logged), ref, s, msg.data.seqNo, now);
  }

  /** Evicting the oldest message first is exactly what the budget check counted on. */
  lemma RouteBufferedKeeps(m: Manager, ref: nat, s: SocketId, target: Option<SocketId>, msg: Message, now: nat)
    requires Body(m, now) && Open(m, ref) && s in m.store[ref].participants
    requires msg.timestamp == m.store[ref].lastActivity
    ensures Body(RouteBuffered(m, ref, s, target, msg).0, now)
  {
    if BudgetError(m, ref, msg.size, msg.sourceIp).None? {
      var evicts := |m.store[ref].buffer| >= MAX_BUFFERED_MESSAGES;
      var evicted := if evicts then WithdrawAt(m, ref, 0, Evicted) else m;
      BodyFacts(m, ref, now);
      if evicts {
        EvictionMakesRoom(m, ref, msg.size, msg.sourceIp, now);
        WithdrawAtKeepsBody(m, ref, 0, Evicted, now);
      }
      assert Open(evicted, ref);
      AppendKeepsBody(evicted, ref, msg, now);
      SequencedKeepsBody(Append(evicted, ref, msg), ref, s, msg.data.seqNo, now);
    }
  }

  lemma EvictionMakesRoom(m: Manager, ref: nat, size: nat, ip: Ip, now: nat)
    requires Body(m, now) && ref < |m.store| && |m.store[ref].buffer| >= MAX_BUFFERED_MESSAGES
    ensures var evicted := WithdrawAt(m, ref, 0, Evicted);
            && (BudgetError(m, ref, size, ip).None? <==> Fits(evicted, ref, size, ip))
            && |evicted.store[ref].buffer| == |m.store[ref].buffer| - 1
            && evicted.store[ref].lastActivity == m.store[ref].lastActivity
  {
    var buffer := m.store[ref].buffer;
    WithoutSplits(buffer, 0);
    WithdrawConserves(m, ref, Without(buffer, 0), [buffer[0]], Evicted);
    BytesWithout([buffer[0]], 0, None);
    BytesWithout([buffer[0]], 0, Some(ip));
    assert Without([buffer[0]], 0) == [];
  }

  lemma CounterpartTakesOtherRole(parts: map<SocketId, ClientType>, s: SocketId)
    requires RoleUnique(parts) && s in parts
    ensures match Counterpart(parts, s)
            case None => forall o :: o in parts ==> o == s
            case Some(t) => && t in parts && parts[t] == Other(parts[s])
                            && (forall o :: o in parts ==> o == s || o == t)
  {
  }

  lemma RouteDirectQuiet(m: Manager, ref: nat, s: SocketId, target: SocketId, msg: Message)
    requires ref < |m.store|
    ensures Quiet(m, RouteDirect(m, ref, s, target, msg).0)
  {
  }

  lemma RouteBufferedQuiet(m: Manager, ref: nat, s: SocketId, target: Option<SocketId>, msg: Message)
    requires ref < |m.store|
    ensures Quiet(m, RouteBuffered(m, ref, s, target, msg).0)
  {
  }

  lemma DispatchQuiet(m: Manager, ref: nat, s: SocketId, msg: Message, receivable: set<SocketId>)
    requires ref < |m.store|
    ensures Quiet(m, Dispatch(m, ref, s, msg, receivable).0)
  {
    var target := Counterpart(m.store[ref].participants, s);
    if target.Some? {
      RouteDirectQuiet(m, ref, s, target.value, msg);
    }
    RouteBufferedQuiet(m, ref, s, target, msg);
    hide RouteDirect, RouteBuffered, Quiet;
  }

  lemma TouchKeepsChan(c: Chan, now: nat)
    requires ChanOk(c, now)
    ensures ChanOk(c.(lastActivity := now), now)
  {
  }

  lemma TouchOpen(m: Manager, id: ChannelId, now: nat)
    requires m.RefsOk() && m.Live(id)
    ensures var touched := m.Put(m.channels[id], m.At(id).(lastActivity := now));
            && touched.RefsOk() && Open(touched, m.channels[id]) && Quiet(m, touched)
            && !Unnamed(m, m.channels[id])
  {
    var touched := m.Put(m.channels[id], m.At(id).(lastActivity := now));
    assert touched.channels[id] == m.channels[id];
  }

  lemma TouchKeeps(m: Manager, id: ChannelId, now: nat)
    requires Sound(m, now) && m.Live(id)
    ensures var touched := m.Put(m.channels[id], m.At(id).(lastActivity := now));
            touched.RefsOk() && Sound(touched, now) && Open(touched, m.channels[id])
  {
    hide ChanOk, Budgets, Conserved, Lifecycle;
    var ref, c := m.channels[id], m.At(id);
    var touched := m.Put(ref, c.(lastActivity := now));
    BodyFacts(m, ref, now);
    TouchKeepsChan(c, now);
    hide Body, Shape;
    TouchOpen(m, id, now);
    PutKeepsBody(m, ref, c.(lastActivity := now), now);
    QuietKeepsLifecycle(m, touched);
  }

  lemma RouteKeepsSound(m: Manager, id: ChannelId, s: SocketId, data: Payload, ip: Ip,
                        receivable: set<SocketId>, now: nat)
    requires m.RefsOk() && Sound(m, now)
    ensures Sound(Route(m, id, s, data, ip, receivable, now).0, now)
  {
    hide Sound, Dispatch;
    if m.Live(id) {
      var ref, c := m.channels[id], m.At(id);
      var touched := m.Put(ref, c.(lastActivity := now));
      TouchKeeps(m, id, now);
      if s in c.participants && data.bytes.Some? {
        TouchedDispatchKeeps(touched, ref, s, Message(data, Other(c.participants[s]), now, data.bytes.value, ip),
                             receivable, now);
      }
    }
  }

  lemma TouchedDispatchKeeps(m: Manager, ref: nat, s: SocketId, msg: Message, receivable: set<SocketId>, now: nat)
    requires Sound(m, now) && Open(m, ref) && s in m.store[ref].participants
    requires msg.timestamp == m.store[ref].lastActivity
    ensures Sound(Dispatch(m, ref, s, msg, receivable).0, now)
  {
    hide RouteDirect, RouteBuffered, Body, Quiet, Lifecycle, Fits;
    var target := Counterpart(m.store[ref].participants, s);
    if target.Some? && FitsDirectly(m, ref, target.value, msg.size, msg.sourceIp) {
      RouteDirectKeeps(m, ref, s, target.value, msg, now);
    }
    RouteBufferedKeeps(m, ref, s, target, msg, now);
    DispatchQuiet(m, ref, s, msg, receivable);
    BodyShape(m, now);
    QuietKeepsLifecycle(m, Dispatch(m, ref, s, msg, receivable).0);
  }

  // ---------- releaseDirectDelivery and advanceDirectDelivery ----------

  lemma ReleaseKeepsSound(m: Manager, s: SocketId, now: nat)
    requires m.RefsOk() && Sound(m, now)
    ensures Sound(Release(m, s), now)
  {
    hide Body, Lifecycle;
    ReleaseKeepsBody(m, s, now);
    assert Quiet(m, Release(m, s));
    QuietKeepsLifecycle(m, Release(m, s));
  }

  /** A promotion moves bytes from the buffered side to the in-flight side; no budget notices. */
  lemma PromoteKeepsBody(m: Manager, ref: nat, s: SocketId, i: nat, now: nat)
    requires Body(m, now) && ref < |m.store| && i < |m.store[ref].buffer| && s !in m.deliveries
    ensures Body(Promote(m, ref, s, i), now)
  {
    var buffer := m.store[ref].buffer;
    var next := buffer[i];
    WithoutSplits(buffer, i);
    WithdrawConserves(m, ref, Without(buffer, i), [next], Promoted);
    WithdrawAtKeepsBody(m, ref, i, Promoted, now);
    BytesWithout([next], 0, None);
    BytesWithout([next], 0, Some(next.sourceIp));
    assert Without([next], 0) == [];
    assert IpWithinBudget(m, next.sourceIp);
    ReserveKeepsBody(WithdrawAt(m, ref, i, Promoted), s, Reservation(ref, next.sourceIp, next.size), now);
  }

  lemma AdvanceQuiet(m: Manager, s: SocketId)
    requires m.RefsOk()
    ensures Advance(m, s).0.RefsOk() && Quiet(m, Advance(m, s).0)
  {
  }

  lemma ReleaseShape(m: Manager, s: SocketId, ref: nat)
    requires m.RefsOk() && ref < |m.store|
    ensures var free := Release(m, s);
            && s !in free.deliveries && |free.store| == |m.store|
            && free.store[ref].buffer == m.store[ref].buffer
  {
  }

  lemma AdvanceKeepsBody(m: Manager, s: SocketId, now: nat)
    requires m.RefsOk() && Body(m, now) && s in m.deliveries
    ensures Body(Advance(m, s).0, now)
  {
    hide Body, Release, Promote;
    var ref := m.deliveries[s].channel;
    var c := m.store[ref];
    ReleaseKeepsBody(m, s, now);
    ReleaseShape(m, s, ref);
    if s in c.participants && !c.terminated && FirstFor(c.buffer, c.participants[s]) < |c.buffer| {
      PromoteKeepsBody(Release(m, s), ref, s, FirstFor(c.buffer, c.participants[s]), now);
    }
  }

  lemma AdvanceKeepsSound(m: Manager, s: SocketId, now: nat)
    requires m.RefsOk() && Sound(m, now)
    ensures Sound(Advance(m, s).0, now)
  {
    hide Body, Lifecycle, Quiet, Advance;
    AdvanceQuiet(m, s);
    QuietKeepsLifecycle(m, Advance(m, s).0);
    if s in m.deliveries {
      AdvanceKeepsBody(m, s, now);
    } else {
      IdleAdvance(m, s);
    }
  }

  lemma IdleAdvance(m: Manager, s: SocketId)
    requires m.RefsOk() && s !in m.deliveries
    ensures Advance(m, s) == (m, None)
  {
  }

  // ---------- cleanup ----------

  /** What the sweep keeps before it filters the FIFO. */
  ghost predicate SweepInvariant(m: Manager, now: nat) {
    && Body(m, now)
    && TombstonesListed(m)
    && CreatorsCapped(m)
    && |m.terminatedOrder| <= MAX_TOMBSTONES
  }

  lemma UnmapKeepsListed(m: Manager, id: ChannelId)
    requires m.RefsOk() && TombstonesListed(m)
    ensures Unmap(m, id).RefsOk() && TombstonesListed(Unmap(m, id))
  {
  }

  lemma QuietKeepsListed(m: Manager, after: Manager)
    requires m.RefsOk() && after.RefsOk() && Quiet(m, after) && TombstonesListed(m) && CreatorsCapped(m)
    ensures TombstonesListed(after) && CreatorsCapped(after)
  {
    forall ip ensures CreatedBy(after, ip) == CreatedBy(m, ip) {}
  }

  lemma HeadIsMember(ms: seq<Message>)
    ensures ms == [] || ms[0] in ms
  {
  }

  /** A channel old enough to be forgotten has outlived every message it could still hold. */
  lemma ForgottenChannelsAreEmpty(c: Chan, now: nat)
    requires ChanOk(c, now)
    requires forall msg :: msg in c.buffer ==> !OlderThan(now).Takes(msg)
    requires c.terminated || now - c.lastActivity > CHANNEL_TTL_MS
    ensures c.buffer == []
  {
    HeadIsMember(c.buffer);
  }

  lemma ExpiryKeeps(m: Manager, id: ChannelId, now: nat)
    requires m.RefsOk() && SweepInvariant(m, now) && id in m.channels
    ensures var w := WithdrawPicked(m, m.channels[id], OlderThan(now), Expired);
            w.RefsOk() && SweepInvariant(w, now) && id in w.channels && w.channels[id] < |w.store|
            && ChanOk(w.At(id), now) && forall msg :: msg in w.At(id).buffer ==> !OlderThan(now).Takes(msg)
  {
    hide Body, TombstonesListed, CreatorsCapped, ChanOk;
    var w := WithdrawPicked(m, m.channels[id], OlderThan(now), Expired);
    WithdrawPickedKeepsBody(m, m.channels[id], OlderThan(now), Expired, now);
    assert Quiet(m, w);
    QuietKeepsListed(m, w);
    BodyFacts(w, w.channels[id], now);
  }

  lemma SweepOneKeeps(m: Manager, id: ChannelId, now: nat)
    requires m.RefsOk() && SweepInvariant(m, now)
    ensures SweepInvariant(SweepOne(m, id, now), now)
  {
    if id in m.channels {
      ExpiryKeeps(m, id, now);
      hide TombstonesListed, WithdrawPicked, CreatorsCapped, Body;
      var w := WithdrawPicked(m, m.channels[id], OlderThan(now), Expired);
      UnmapKeepsListed(w, id);
      if SweepOne(m, id, now) != w {
        ForgottenChannelsAreEmpty(w.At(id), now);
        assert w.At(id).participants == map[];
        UnmapKeeps(w, id, now);
      }
    }
  }

  lemma {:induction false} SweepEachKeeps(m: Manager, ids: seq<ChannelId>, now: nat)
    requires m.RefsOk() && SweepInvariant(m, now)
    ensures SweepInvariant(SweepEach(m, ids, now), now)
  {
    if ids != [] {
      SweepEachKeeps(m, ids[..|ids| - 1], now);
      SweepOneKeeps(SweepEach(m, ids[..|ids| - 1], now), ids[|ids| - 1], now);
    }
  }

  lemma {:induction false} StillMappedKeeps(ids: seq<ChannelId>, channels: map<ChannelId, nat>)
    ensures var kept := StillMapped(ids, channels);
            && |kept| <= |ids|
            && (forall id :: id in kept <==> id in ids && id in channels)
  {
    if ids != [] {
      StillMappedKeeps(ids[..|ids| - 1], channels);
    }
  }

  /** Filtering keeps the FIFO's order. */
  lemma {:induction false} StillMappedOrdered(m: Manager, ids: seq<ChannelId>)
    requires m.RefsOk() && Distinct(ids)
    requires forall i, j :: 0 <= i < j < |ids| && ids[i] in m.channels && ids[j] in m.channels
               ==> m.At(ids[i]).terminatedAt <= m.At(ids[j]).terminatedAt
    ensures var kept := StillMapped(ids, m.channels);
            && (forall id :: id in kept ==> id in ids && id in m.channels)
            && Distinct(kept)
            && (forall i, j :: 0 <= i < j < |kept| ==> m.At(kept[i]).terminatedAt <= m.At(kept[j]).terminatedAt)
  {
    if ids != [] {
      var init, last := ids[..|ids| - 1], ids[|ids| - 1];
      var kept := StillMapped(init, m.channels);
      StillMappedOrdered(m, init);
      assert StillMapped(ids, m.channels) == kept + if last in m.channels then [last] else [];
      hide StillMapped;
      if last in m.channels {
        forall i | 0 <= i < |kept|
          ensures kept[i] != last && m.At(kept[i]).terminatedAt <= m.At(last).terminatedAt
        {
          assert kept[i] in init;
          var j :| 0 <= j < |init| && init[j] == kept[i];
          assert ids[j] == kept[i];
        }
      }
    }
  }

  lemma SoundSweeps(m: Manager, ids: seq<ChannelId>, now: nat)
    requires Sound(m, now)
    ensures m.RefsOk() && SweepInvariant(SweepEach(m, ids, now), now)
  {
    hide Body;
    BodyShape(m, now);
    SweepEachKeeps(m, ids, now);
  }

  /** Dropping the forgotten ids from the order completes the sweep. */
  lemma ReorderKeepsLifecycle(swept: Manager, now: nat)
    requires swept.RefsOk() && SweepInvariant(swept, now)
    ensures Lifecycle(swept.(terminatedOrder := StillMapped(swept.terminatedOrder, swept.channels)))
  {
    hide Body, StillMapped;
    StillMappedKeeps(swept.terminatedOrder, swept.channels);
    StillMappedOrdered(swept, swept.terminatedOrder);
    var after := swept.(terminatedOrder := StillMapped(swept.terminatedOrder, swept.channels));
    forall ip ensures CreatedBy(after, ip) == CreatedBy(swept, ip) {}
  }

  lemma CleanupKeepsSound(m: Manager, ids: seq<ChannelId>, now: nat)
    requires Sound(m, now)
    ensures Sound(Cleanup(m, ids, now), now)
  {
    assert m.RefsOk() by {
      SoundSweeps(m, ids, now);
    }
    hide Body, Lifecycle;
    var swept := SweepEach(m, ids, now);
    var order := StillMapped(swept.terminatedOrder, swept.channels);
    SoundSweeps(m, ids, now);
    OrderKeepsBody(swept, order, now);
    ReorderKeepsLifecycle(swept, now);
  }
}
