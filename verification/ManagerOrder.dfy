/**
 The manager's operations keep the order law. Only a direct write can break it,
 and it does so exactly when another message waits for its role.
 */
module ManagerOrder {
  import opened Options
  import opened RelayTypes
  import opened Ledgers
  import opened ManagerSpec
  import opened ManagerSafety
  import opened ManagerOps
  import opened ManagerRouting
  import opened ManagerEffects
  import opened ManagerSteps
  import opened ManagerAnswers
  import opened DeliveryOrder

  /** Buffers and histories are untouched. */
  ghost predicate SameQueues(m: Manager, after: Manager) {
    && |after.store| == |m.store|
    && (forall i :: 0 <= i < |m.store| ==>
          && after.store[i].accepted == m.store[i].accepted
          && after.store[i].settled == m.store[i].settled
          && after.store[i].buffer == m.store[i].buffer)
  }

  lemma SameQueuesKeepsOrder(m: Manager, after: Manager)
    requires AllInOrder(m) && SameQueues(m, after)
    ensures AllInOrder(after)
  {
    forall i | 0 <= i < |after.store| ensures ChanInOrder(after.store[i]) {
      assert ChanInOrder(m.store[i]);
    }
  }

  lemma WithdrawPickedKeepsOrder(m: Manager, ref: nat, role: ClientType, fate: Fate)
    requires ref < |m.store| && AllInOrder(m)
    ensures AllInOrder(WithdrawPicked(m, ref, ForRole(role), fate))
  {
    var buffer := m.store[ref].buffer;
    PickRoleFront(buffer, role, Dapp);
    PickRoleFront(buffer, role, Wallet);
    hide AllInOrder, FrontOf, Withdraw;
    WithdrawKeepsOrder(m, ref, Pick(buffer, ForRole(role), false), Pick(buffer, ForRole(role), true), fate);
  }

  lemma WithdrawAtKeepsOrder(m: Manager, ref: nat, i: nat, fate: Fate)
    requires ref < |m.store| && i < |m.store[ref].buffer| && AllInOrder(m)
    requires forall j :: 0 <= j < i ==> m.store[ref].buffer[j].target != m.store[ref].buffer[i].target
    ensures AllInOrder(WithdrawAt(m, ref, i, fate))
  {
    var buffer := m.store[ref].buffer;
    FirstForFront(buffer, i, Dapp);
    FirstForFront(buffer, i, Wallet);
    hide AllInOrder, FrontOf, Withdraw;
    WithdrawKeepsOrder(m, ref, Without(buffer, i), [buffer[i]], fate);
  }

  lemma AdmitKeepsOrder(m: Manager, ref: nat, s: SocketId, role: ClientType, key: Option<Key>, now: nat)
    requires ref < |m.store| && AllInOrder(m)
    ensures AllInOrder(AdmitUnlessFull(m, ref, s, role, key, now).0)
  {
    var c := m.store[ref];
    var seated := c.(
      publicKey := if c.publicKey.None? then key else c.publicKey,
      participants := c.participants[s := role],
      lastActivity := now);
    PutKeepsOrder(m, ref, seated);
    WithdrawPickedKeepsOrder(m.Put(ref, seated), ref, role, Returned);
    hide AllInOrder, WithdrawPicked;
  }

  lemma ReplaceRivalKeepsOrder(m: Manager, ref: nat, o: SocketId)
    requires m.RefsOk() && ref < |m.store| && AllInOrder(m)
    ensures AllInOrder(Release(RemoveParticipant(m, ref, o), o))
  {
    hide AllInOrder;
    SameQueuesKeepsOrder(m, Release(RemoveParticipant(m, ref, o), o));
  }

  lemma JoinExistingKeepsOrder(m: Manager, ref: nat, s: SocketId, role: ClientType, key: Option<Key>,
                               active: set<SocketId>, now: nat)
    requires m.RefsOk() && ref < |m.store| && AllInOrder(m)
    ensures AllInOrder(JoinExisting(m, ref, s, role, key, active, now).0)
  {
    hide AllInOrder, AdmitUnlessFull;
    AdmitKeepsOrder(m, ref, s, role, key, now);
    var rival := Rival(m.store[ref].participants, s, role);
    if rival.Some? {
      var freed := Release(RemoveParticipant(m, ref, rival.value), rival.value);
      ReplaceRivalKeepsOrder(m, ref, rival.value);
      AdmitKeepsOrder(freed, ref, s, role, key, now);
    }
  }

  lemma JoinKeepsOrder(m: Manager, id: ChannelId, s: SocketId, role: ClientType, offer: KeyOffer,
                       creatorIp: Option<Ip>, active: set<SocketId>, now: nat)
    requires m.RefsOk() && AllInOrder(m)
    ensures AllInOrder(Join(m, id, s, role, offer, creatorIp, active, now).0)
  {
    var key := CanonicalKey(role, offer);
    if id in m.channels {
      JoinExistingKeepsOrder(m, m.channels[id], s, role, key, active, now);
    } else {
      var grown := Allocate(m, id, creatorIp, now);
      assert ChanInOrder(FreshChan(creatorIp, now)) by {
        assert Plain([]) == [];
      }
      assert AllInOrder(grown);
      JoinExistingKeepsOrder(grown, |m.store|, s, role, key, active, now);
    }
    hide AllInOrder, JoinExisting;
  }

  lemma LeaveKeepsOrder(m: Manager, s: SocketId, id: ChannelId, now: nat)
    requires m.RefsOk() && AllInOrder(m)
    ensures AllInOrder(Leave(m, s, id, now).0)
  {
    assert SameQueues(m, Leave(m, s, id, now).0);
    SameQueuesKeepsOrder(m, Leave(m, s, id, now).0);
  }

  lemma CloseKeepsOrder(m: Manager, id: ChannelId, now: nat)
    requires m.RefsOk() && AllInOrder(m)
    ensures AllInOrder(Close(m, id, now).0)
  {
    if id in m.channels && !m.At(id).terminated {
      var ref := m.channels[id];
      AllFront(m.At(id).buffer, Dapp);
      AllFront(m.At(id).buffer, Wallet);
      WithdrawKeepsOrder(m, ref, [], m.At(id).buffer, Dropped);
      var t := Terminate(m, ref, now);
      SameQueuesKeepsOrder(Withdraw(m, ref, [], m.At(id).buffer, Dropped), t);
      var listed := t.(terminatedOrder := t.terminatedOrder + [id]);
      EvictEffect(listed);
      hide AllInOrder, Terminate, EvictTombstones;
      SameQueuesKeepsOrder(t, Close(m, id, now).0);
    }
  }

  lemma ReleaseKeepsOrder(m: Manager, s: SocketId)
    requires m.RefsOk() && AllInOrder(m)
    ensures AllInOrder(Release(m, s))
  {
    SameQueuesKeepsOrder(m, Release(m, s));
  }

  lemma AdvanceKeepsOrder(m: Manager, s: SocketId)
    requires m.RefsOk() && AllInOrder(m)
    ensures AllInOrder(Advance(m, s).0)
  {
    ReleaseKeepsOrder(m, s);
    if s in m.deliveries && s in m.store[m.deliveries[s].channel].participants {
      var ref, free := m.deliveries[s].channel, Release(m, s);
      var c := m.store[ref];
      var i := FirstFor(c.buffer, c.participants[s]);
      if i < |c.buffer| {
        WithdrawAtKeepsOrder(free, ref, i, Promoted);
        var w := WithdrawAt(free, ref, i, Promoted);
        SameQueuesKeepsOrder(w, Promote(free, ref, s, i));
      }
    }
    hide AllInOrder, Promote, Release;
  }

  lemma SequencedKeepsOrder(m: Manager, ref: nat, s: SocketId, seqNo: Option<nat>)
    requires ref < |m.store| && AllInOrder(m)
    ensures AllInOrder(Sequenced(m, ref, s, seqNo))
  {
    SameQueuesKeepsOrder(m, Sequenced(m, ref, s, seqNo));
  }

  lemma BufferedKeepsOrder(m: Manager, ref: nat, s: SocketId, target: Option<SocketId>, msg: Message)
    requires ref < |m.store| && AllInOrder(m)
    ensures AllInOrder(RouteBuffered(m, ref, s, target, msg).0)
  {
    hide AllInOrder, Sequenced;
    var evicts := |m.store[ref].buffer| >= MAX_BUFFERED_MESSAGES;
    if evicts {
      WithdrawAtKeepsOrder(m, ref, 0, Evicted);
    }
    var evicted := if evicts then WithdrawAt(m, ref, 0, Evicted) else m;
    AppendKeepsOrder(evicted, ref, msg);
    SequencedKeepsOrder(Append(evicted, ref, msg), ref, s, msg.data.seqNo);
  }

  /** Dispatching keeps the order law exactly when it does not write past another message waiting for that role. */
  lemma DispatchKeepsOrderIff(m: Manager, ref: nat, s: SocketId, msg: Message, receivable: set<SocketId>)
    requires ref < |m.store| && AllInOrder(m)
    ensures AllInOrder(Dispatch(m, ref, s, msg, receivable).0) <==>
              !(Dispatch(m, ref, s, msg, receivable).1.target.Some? && Overtakes(m.store[ref].buffer, msg))
  {
    var target := Counterpart(m.store[ref].participants, s);
    if target.Some? {
      DirectKeepsOrderIff(m, ref, s, target.value, msg);
    }
    BufferedKeepsOrder(m, ref, s, target, msg);
    hide AllInOrder, Overtakes;
  }

  /** The message would be written at once although another one waits for its role. */
  ghost predicate PassesWaiting(m: Manager, id: ChannelId, s: SocketId, data: Payload, ip: Ip,
                                receivable: set<SocketId>, now: nat)
    requires m.RefsOk()
  {
    && WritesNow(m, id, s, data, ip, receivable)
    && Overtakes(m.At(id).buffer, Message(data, Other(m.At(id).participants[s]), now, data.bytes.value, ip))
  }

  lemma RouteKeepsOrderIff(m: Manager, id: ChannelId, s: SocketId, data: Payload, ip: Ip,
                           receivable: set<SocketId>, now: nat)
    requires m.RefsOk() && Shape(m, now) && AllInOrder(m)
    ensures AllInOrder(Route(m, id, s, data, ip, receivable, now).0) <==>
              !PassesWaiting(m, id, s, data, ip, receivable, now)
  {
    WritesDirectlyIff(m, id, s, data, ip, receivable, now);
    if SeatedAt(m, id, s) {
      var ref, c := m.channels[id], m.At(id);
      var touched := m.Put(ref, c.(lastActivity := now));
      PutKeepsOrder(m, ref, c.(lastActivity := now));
      if data.bytes.Some? {
        var msg := Message(data, Other(c.participants[s]), now, data.bytes.value, ip);
        DispatchKeepsOrderIff(touched, ref, s, msg, receivable);
      }
    }
    hide AllInOrder, Dispatch, WritesNow, Overtakes, Shape;
  }

  lemma SweepOneKeepsOrder(m: Manager, id: ChannelId, now: nat)
    requires m.RefsOk() && AllInOrder(m)
    requires id in m.channels ==> TimeOrdered(m.At(id).buffer)
    ensures AllInOrder(SweepOne(m, id, now))
  {
    if id in m.channels {
      var ref, buffer := m.channels[id], m.At(id).buffer;
      ExpiredFront(buffer, now, Dapp);
      ExpiredFront(buffer, now, Wallet);
      WithdrawKeepsOrder(m, ref, Pick(buffer, OlderThan(now), false), Pick(buffer, OlderThan(now), true), Expired);
      hide FrontOf, Withdraw, ChanInOrder, Pick;
    }
  }

  lemma {:induction false} SweepEachKeepsOrder(m: Manager, ids: seq<ChannelId>, now: nat)
    requires m.RefsOk() && SweepInvariant(m, now) && AllInOrder(m)
    ensures AllInOrder(SweepEach(m, ids, now))
  {
    if ids != [] {
      var init, last := ids[..|ids| - 1], ids[|ids| - 1];
      SweepEachKeepsOrder(m, init, now);
      SweepEachKeeps(m, init, now);
      var swept := SweepEach(m, init, now);
      if last in swept.channels {
        BodyFacts(swept, swept.channels[last], now);
      }
      hide AllInOrder, SweepOne, Body;
      SweepOneKeepsOrder(swept, last, now);
    }
  }

  lemma CleanupKeepsOrder(m: Manager, ids: seq<ChannelId>, now: nat)
    requires m.RefsOk() && Sound(m, now) && AllInOrder(m)
    ensures AllInOrder(Cleanup(m, ids, now))
  {
    SweepEachKeepsOrder(m, ids, now);
    SameQueuesKeepsOrder(SweepEach(m, ids, now), Cleanup(m, ids, now));
  }

  // ---------- Sequences of operations ----------

  lemma ApplyKeepsOrder(m: Manager, op: Op, now: nat)
    requires m.RefsOk() && Sound(m, now) && AllInOrder(m) && !op.RouteOp?
    ensures AllInOrder(Apply(m, op, now))
  {
    hide Sound, AllInOrder, Join, Leave, Close, Release, Advance, Cleanup;
    match op
    case JoinOp(id, s, role, offer, creatorIp, active) => JoinKeepsOrder(m, id, s, role, offer, creatorIp, active, now);
    case LeaveOp(s, id) => LeaveKeepsOrder(m, s, id, now);
    case CloseOp(id) => CloseKeepsOrder(m, id, now);
    case ReleaseOp(s) => ReleaseKeepsOrder(m, s);
    case AdvanceOp(s) => AdvanceKeepsOrder(m, s);
    case CleanupOp(ids) => CleanupKeepsOrder(m, ids, now);
  }

  /** Whatever operations but routing follow one another, every queue stays in order. */
  lemma {:induction false} ApplyAllKeepsOrder(m: Manager, ops: seq<Op>, now: nat)
    requires m.RefsOk() && Sound(m, now) && AllInOrder(m) && NoRouteIn(ops)
    ensures AllInOrder(ApplyAll(m, ops, now))
    decreases |ops|
  {
    hide Sound, AllInOrder, Apply;
    if ops != [] {
      ApplyKeepsSound(m, ops[0], now);
      ApplyKeepsOrder(m, ops[0], now);
      ApplyAllKeepsOrder(Apply(m, ops[0], now), ops[1..], now);
    }
  }
}
