/**
 Channel objects only age. Histories grow, a key once bound stays until the
 channel is terminated, a terminated object never changes again except that its
 outstanding bytes drain, and while a socket keeps its seat the sequence number
 recorded for it never falls.
 */
module ManagerAging {
  import opened Options
  import opened RelayTypes
  import opened Ledgers
  import opened ManagerSpec
  import opened Conservation
  import opened ManagerSafety
  import opened ManagerOps
  import opened ManagerRouting
  import opened ManagerEffects
  import opened ManagerSteps

  ghost predicate Ages(c: Chan, d: Chan) {
    && c.accepted <= d.accepted
    && c.settled <= d.settled
    && d.creatorIp == c.creatorIp
    && (c.publicKey.Some? ==> d.publicKey == c.publicKey || d.terminated)
    && (c.terminated ==> d == c.(inflightBytes := d.inflightBytes) && d.inflightBytes <= c.inflightBytes)
  }

  ghost predicate Aged(m: Manager, after: Manager) {
    && |m.store| <= |after.store|
    && forall i :: 0 <= i < |m.store| ==> Ages(m.store[i], after.store[i])
  }

  /** A seat kept across one operation keeps its sequence number from falling. */
  ghost predicate KeepsSeq(c: Chan, d: Chan) {
    forall s: SocketId :: s in c.participants && s in d.participants && s in c.seqNumbers ==>
      s in d.seqNumbers && c.seqNumbers[s] <= d.seqNumbers[s]
  }

  ghost predicate SeqKept(m: Manager, after: Manager) {
    && |m.store| <= |after.store|
    && forall i :: 0 <= i < |m.store| ==> KeepsSeq(m.store[i], after.store[i])
  }

  /** No object gains a participant. */
  ghost predicate NoJoins(m: Manager, after: Manager) {
    && |m.store| <= |after.store|
    && forall i :: 0 <= i < |m.store| ==> after.store[i].participants.Keys <= m.store[i].participants.Keys
  }

  lemma AgedTwice(a: Manager, b: Manager, c: Manager)
    requires Aged(a, b) && Aged(b, c)
    ensures Aged(a, c)
  {
    forall i | 0 <= i < |a.store| ensures Ages(a.store[i], c.store[i]) {
      assert Ages(a.store[i], b.store[i]) && Ages(b.store[i], c.store[i]);
    }
  }

  /** Along `a`, `b`, `c` with no seat gained after `b`, a seat held at both ends was held throughout. */
  lemma SeqKeptTwice(a: Manager, b: Manager, c: Manager)
    requires SeqKept(a, b) && SeqKept(b, c) && NoJoins(b, c)
    ensures SeqKept(a, c)
  {
    forall i | 0 <= i < |a.store| ensures KeepsSeq(a.store[i], c.store[i]) {
      assert KeepsSeq(a.store[i], b.store[i]) && KeepsSeq(b.store[i], c.store[i]);
    }
  }

  /** What every operation other than a join does. */
  ghost predicate Steady(m: Manager, after: Manager) {
    Aged(m, after) && SeqKept(m, after) && NoJoins(m, after)
  }

  lemma SteadySelf(m: Manager)
    ensures Steady(m, m)
  {
  }

  lemma SteadyTwice(a: Manager, b: Manager, c: Manager)
    requires Steady(a, b) && Steady(b, c)
    ensures Steady(a, c)
  {
    AgedTwice(a, b, c);
    SeqKeptTwice(a, b, c);
  }

  // ---------- Primitive moves ----------

  lemma ReleaseSteady(m: Manager, s: SocketId, now: nat)
    requires Body(m, now)
    ensures Steady(m, Release(m, s))
  {
  }

  lemma WithdrawSteady(m: Manager, ref: nat, keep: seq<Message>, out: seq<Message>, fate: Fate)
    requires ref < |m.store|
    requires m.store[ref].terminated ==> keep == m.store[ref].buffer && out == []
    ensures Steady(m, Withdraw(m, ref, keep, out, fate))
  {
  }

  lemma PutSteady(m: Manager, ref: nat, c: Chan)
    requires ref < |m.store| && Ages(m.store[ref], c) && KeepsSeq(m.store[ref], c)
    requires c.participants.Keys <= m.store[ref].participants.Keys
    ensures Steady(m, m.Put(ref, c))
  {
  }

  lemma ReserveSteady(m: Manager, s: SocketId, r: Reservation<nat>)
    requires r.channel < |m.store| && !m.store[r.channel].terminated
    ensures Steady(m, Reserve(m, s, r))
  {
  }

  lemma AppendSteady(m: Manager, ref: nat, msg: Message)
    requires ref < |m.store| && !m.store[ref].terminated
    ensures Steady(m, Append(m, ref, msg))
  {
  }

  lemma SequencedSteady(m: Manager, ref: nat, s: SocketId, seqNo: Option<nat>)
    requires ref < |m.store| && !m.store[ref].terminated && !Replays(m.store[ref], s, seqNo)
    ensures Steady(m, Sequenced(m, ref, s, seqNo))
  {
  }

  // ---------- Operations ----------

  lemma LeaveSteady(m: Manager, s: SocketId, id: ChannelId, now: nat)
    requires m.RefsOk() && Body(m, now)
    ensures Steady(m, Leave(m, s, id, now).0)
  {
    if id in m.channels && s in m.At(id).participants {
      BodyFacts(m, m.channels[id], now);
      PutSteady(m, m.channels[id], Leave(m, s, id, now).0.At(id));
    } else {
      SteadySelf(m);
    }
  }

  lemma TerminateSteady(m: Manager, ref: nat, now: nat)
    requires ref < |m.store| && !m.store[ref].terminated
    ensures Steady(m, Terminate(m, ref, now))
  {
  }

  lemma {:induction false} EvictKeepsStore(m: Manager)
    requires m.RefsOk()
    ensures EvictTombstones(m).store == m.store
    decreases |m.terminatedOrder|
  {
    if |m.terminatedOrder| > MAX_TOMBSTONES {
      var oldest := m.terminatedOrder[0];
      var popped := m.(terminatedOrder := m.terminatedOrder[1..]);
      EvictKeepsStore(if oldest in m.channels && m.At(oldest).terminated then Unmap(popped, oldest) else popped);
    }
  }

  lemma CloseSteady(m: Manager, id: ChannelId, now: nat)
    requires m.RefsOk()
    ensures Steady(m, Close(m, id, now).0)
  {
    if m.Live(id) {
      var t := Terminate(m, m.channels[id], now);
      TerminateSteady(m, m.channels[id], now);
      EvictKeepsStore(t.(terminatedOrder := t.terminatedOrder + [id]));
    } else {
      SteadySelf(m);
    }
  }

  lemma RouteDirectSteady(m: Manager, ref: nat, s: SocketId, target: SocketId, msg: Message)
    requires ref < |m.store| && !m.store[ref].terminated && !Replays(m.store[ref], s, msg.data.seqNo)
    ensures Steady(m, RouteDirect(m, ref, s, target, msg).0)
  {
    var reserved := Reserve(m, target, Reservation(ref, msg.sourceIp, msg.size));
    ReserveSteady(m, target, Reservation(ref, msg.sourceIp, msg.size));
    var c := reserved.store[ref];
    var logged := c.(accepted := c.accepted + [msg], settled := c.settled + Tag([msg], Handed));
    PutSteady(reserved, ref, logged);
    SequencedSteady(reserved.Put(ref, logged), ref, s, msg.data.seqNo);
    hide Steady, Sequenced, Reserve;
    SteadyTwice(m, reserved, reserved.Put(ref, logged));
    SteadyTwice(m, reserved.Put(ref, logged), Sequenced(reserved.Put(ref, logged), ref, s, msg.data.seqNo));
  }

  lemma RouteBufferedSteady(m: Manager, ref: nat, s: SocketId, target: Option<SocketId>, msg: Message)
    requires ref < |m.store| && !m.store[ref].terminated && !Replays(m.store[ref], s, msg.data.seqNo)
    ensures Steady(m, RouteBuffered(m, ref, s, target, msg).0)
  {
    SteadySelf(m);
    if BudgetError(m, ref, msg.size, msg.sourceIp).None? {
      var evicts := |m.store[ref].buffer| >= MAX_BUFFERED_MESSAGES;
      var evicted := if evicts then WithdrawAt(m, ref, 0, Evicted) else m;
      if evicts {
        WithdrawSteady(m, ref, Without(m.store[ref].buffer, 0), [m.store[ref].buffer[0]], Evicted);
      }
      assert !evicted.store[ref].terminated && evicted.store[ref].seqNumbers == m.store[ref].seqNumbers;
      AppendSteady(evicted, ref, msg);
      var appended := Append(evicted, ref, msg);
      SequencedSteady(appended, ref, s, msg.data.seqNo);
      hide Steady, WithdrawAt, Append, Sequenced;
      SteadyTwice(m, evicted, appended);
      SteadyTwice(m, appended, Sequenced(appended, ref, s, msg.data.seqNo));
    }
  }

  lemma RouteSteady(m: Manager, id: ChannelId, s: SocketId, data: Payload, ip: Ip, receivable: set<SocketId>, now: nat)
    requires m.RefsOk()
    ensures Steady(m, Route(m, id, s, data, ip, receivable, now).0)
  {
    hide RouteDirect, RouteBuffered, FitsDirectly, Aged, SeqKept, NoJoins;
    SteadySelf(m);
    if m.Live(id) && s in m.At(id).participants {
      var ref, c := m.channels[id], m.At(id);
      var touched := m.Put(ref, c.(lastActivity := now));
      PutSteady(m, ref, c.(lastActivity := now));
      if data.bytes.Some? && !Replays(c, s, data.seqNo) {
        var msg := Message(data, Other(c.participants[s]), now, data.bytes.value, ip);
        var target := Counterpart(c.participants, s);
        if target.Some? {
          RouteDirectSteady(touched, ref, s, target.value, msg);
          SteadyTwice(m, touched, RouteDirect(touched, ref, s, target.value, msg).0);
        }
        RouteBufferedSteady(touched, ref, s, target, msg);
        SteadyTwice(m, touched, RouteBuffered(touched, ref, s, target, msg).0);
      }
    }
  }

  lemma PromoteSteady(m: Manager, ref: nat, s: SocketId, i: nat)
    requires ref < |m.store| && !m.store[ref].terminated && i < |m.store[ref].buffer|
    ensures Steady(m, Promote(m, ref, s, i))
  {
    var buffer := m.store[ref].buffer;
    WithdrawSteady(m, ref, Without(buffer, i), [buffer[i]], Promoted);
    var w := WithdrawAt(m, ref, i, Promoted);
    ReserveSteady(w, s, Reservation(ref, buffer[i].sourceIp, buffer[i].size));
    hide Steady, Reserve, WithdrawAt;
    SteadyTwice(m, w, Promote(m, ref, s, i));
  }

  lemma AdvanceSteady(m: Manager, s: SocketId, now: nat)
    requires m.RefsOk() && Body(m, now)
    ensures Steady(m, Advance(m, s).0)
  {
    SteadySelf(m);
    ReleaseSteady(m, s, now);
    if s in m.deliveries {
      var ref := m.deliveries[s].channel;
      var c := m.store[ref];
      if s in c.participants && !c.terminated && FirstFor(c.buffer, c.participants[s]) < |c.buffer| {
        PromoteSteady(Release(m, s), ref, s, FirstFor(c.buffer, c.participants[s]));
        hide Steady, Promote, Body;
        SteadyTwice(m, Release(m, s), Advance(m, s).0);
      }
    }
  }

  lemma SweepOneSteady(m: Manager, id: ChannelId, now: nat)
    requires m.RefsOk() && Body(m, now)
    ensures Steady(m, SweepOne(m, id, now))
  {
    SteadySelf(m);
    if id in m.channels {
      BodyFacts(m, m.channels[id], now);
      var buffer := m.At(id).buffer;
      var sieve := OlderThan(now);
      WithdrawSteady(m, m.channels[id], Pick(buffer, sieve, false), Pick(buffer, sieve, true), Expired);
    }
  }

  lemma {:induction false} SweepEachSteady(m: Manager, ids: seq<ChannelId>, now: nat)
    requires m.RefsOk() && SweepInvariant(m, now)
    ensures Steady(m, SweepEach(m, ids, now))
  {
    hide Steady, SweepOne;
    SteadySelf(m);
    if ids != [] {
      var init := SweepEach(m, ids[..|ids| - 1], now);
      SweepEachSteady(m, ids[..|ids| - 1], now);
      SweepEachKeeps(m, ids[..|ids| - 1], now);
      SweepOneSteady(init, ids[|ids| - 1], now);
      SteadyTwice(m, init, SweepEach(m, ids, now));
    }
  }

  // ---------- join ----------

  lemma AdmitAges(m: Manager, ref: nat, s: SocketId, role: ClientType, key: Option<Key>, now: nat)
    requires ref < |m.store| && !m.store[ref].terminated
    ensures Aged(m, AdmitUnlessFull(m, ref, s, role, key, now).0)
    ensures SeqKept(m, AdmitUnlessFull(m, ref, s, role, key, now).0)
  {
    SteadySelf(m);
    if AdmitUnlessFull(m, ref, s, role, key, now).1.Joined? {
      var c := m.store[ref];
      var seated := c.(publicKey := if c.publicKey.None? then key else c.publicKey,
                       participants := c.participants[s := role], lastActivity := now);
      SeatAges(m, ref, seated);
      var keep, out := Pick(c.buffer, ForRole(role), false), Pick(c.buffer, ForRole(role), true);
      WithdrawSteady(m.Put(ref, seated), ref, keep, out, Returned);
      hide Aged, SeqKept, Withdraw;
      var after := WithdrawPicked(m.Put(ref, seated), ref, ForRole(role), Returned);
      AgedTwice(m, m.Put(ref, seated), after);
      SeqKeptTwice(m, m.Put(ref, seated), after);
    }
  }

  lemma SeatAges(m: Manager, ref: nat, seated: Chan)
    requires ref < |m.store| && !m.store[ref].terminated
    requires Ages(m.store[ref], seated) && KeepsSeq(m.store[ref], seated)
    ensures Aged(m, m.Put(ref, seated)) && SeqKept(m, m.Put(ref, seated))
  {
  }

  lemma RemoveSteady(m: Manager, ref: nat, s: SocketId)
    requires ref < |m.store| && !m.store[ref].terminated
    ensures Steady(m, RemoveParticipant(m, ref, s))
  {
  }

  lemma ReplaceRivalSteady(m: Manager, ref: nat, o: SocketId, now: nat)
    requires m.RefsOk() && Body(m, now) && Open(m, ref)
    ensures Steady(m, Release(RemoveParticipant(m, ref, o), o))
  {
    hide Body, Steady;
    RemoveSteady(m, ref, o);
    RemoveKeepsBody(m, ref, o, now);
    ReleaseSteady(RemoveParticipant(m, ref, o), o, now);
    SteadyTwice(m, RemoveParticipant(m, ref, o), Release(RemoveParticipant(m, ref, o), o));
  }

  /** Sequence numbers survive when no seat that was lost comes back. */
  lemma SeqKeptAcross(a: Manager, b: Manager, c: Manager)
    requires SeqKept(a, b) && SeqKept(b, c)
    requires forall i, t: SocketId :: 0 <= i < |a.store| && t in a.store[i].participants && t in c.store[i].participants
               ==> t in b.store[i].participants
    ensures SeqKept(a, c)
  {
    forall i | 0 <= i < |a.store| ensures KeepsSeq(a.store[i], c.store[i]) {
      assert KeepsSeq(a.store[i], b.store[i]) && KeepsSeq(b.store[i], c.store[i]);
    }
  }

  lemma RivalGone(m: Manager, ref: nat, o: SocketId)
    requires m.RefsOk() && ref < |m.store|
    ensures var freed := Release(RemoveParticipant(m, ref, o), o);
            && |freed.store| == |m.store|
            && freed.store[ref].participants == m.store[ref].participants - {o}
            && forall i :: 0 <= i < |m.store| && i != ref ==> freed.store[i].participants == m.store[i].participants
  {
  }

  lemma ReplacedStaysOut(m: Manager, ref: nat, s: SocketId, o: SocketId, role: ClientType, key: Option<Key>, now: nat)
    requires m.RefsOk() && ref < |m.store| && o != s
    ensures var freed := Release(RemoveParticipant(m, ref, o), o);
            var after := AdmitUnlessFull(freed, ref, s, role, key, now).0;
            && |m.store| == |freed.store| == |after.store|
            && forall i, t: SocketId ::
                 0 <= i < |m.store| && t in m.store[i].participants && t in after.store[i].participants
                 ==> t in freed.store[i].participants
  {
    hide AdmitUnlessFull;
    var freed := Release(RemoveParticipant(m, ref, o), o);
    RivalGone(m, ref, o);
    AdmitUnlessFullEffect(freed, ref, s, role, key, now);
  }

  lemma ReplaceAndAdmitAges(m: Manager, ref: nat, s: SocketId, o: SocketId, role: ClientType, key: Option<Key>,
                            now: nat)
    requires m.RefsOk() && Body(m, now) && Open(m, ref) && o != s
    ensures var after := AdmitUnlessFull(Release(RemoveParticipant(m, ref, o), o), ref, s, role, key, now).0;
            Aged(m, after) && SeqKept(m, after)
  {
    hide Body, Aged, SeqKept, AdmitUnlessFull;
    var freed := Release(RemoveParticipant(m, ref, o), o);
    var after := AdmitUnlessFull(freed, ref, s, role, key, now).0;
    ReplaceRivalSteady(m, ref, o, now);
    ReplaceRivalShape(m, ref, o);
    AdmitAges(freed, ref, s, role, key, now);
    ReplacedStaysOut(m, ref, s, o, role, key, now);
    AgedTwice(m, freed, after);
    SeqKeptAcross(m, freed, after);
  }

  lemma JoinExistingAges(m: Manager, ref: nat, s: SocketId, role: ClientType, key: Option<Key>,
                         active: set<SocketId>, now: nat)
    requires m.RefsOk() && Body(m, now) && Open(m, ref)
    ensures var after := JoinExisting(m, ref, s, role, key, active, now).0; Aged(m, after) && SeqKept(m, after)
  {
    hide Aged, SeqKept, AdmitUnlessFull, Body;
    SteadySelf(m);
    AdmitAges(m, ref, s, role, key, now);
    var rival := Rival(m.store[ref].participants, s, role);
    if rival.Some? {
      ReplaceAndAdmitAges(m, ref, s, rival.value, role, key, now);
    }
  }

  lemma AllocateSteady(m: Manager, id: ChannelId, creatorIp: Option<Ip>, now: nat)
    ensures Steady(m, Allocate(m, id, creatorIp, now))
  {
  }

  lemma JoinAges(m: Manager, id: ChannelId, s: SocketId, role: ClientType, offer: KeyOffer,
                 creatorIp: Option<Ip>, active: set<SocketId>, now: nat)
    requires m.RefsOk() && Body(m, now)
    ensures var after := Join(m, id, s, role, offer, creatorIp, active, now).0; Aged(m, after) && SeqKept(m, after)
  {
    var key := CanonicalKey(role, offer);
    SteadySelf(m);
    hide Body, Aged, KeepsSeq, JoinExisting;
    if m.Live(id) {
      JoinExistingAges(m, m.channels[id], s, role, key, active, now);
    } else if id !in m.channels {
      var grown := Allocate(m, id, creatorIp, now);
      AllocateSteady(m, id, creatorIp, now);
      AllocateKeepsBody(m, id, creatorIp, now);
      JoinExistingAges(grown, |m.store|, s, role, key, active, now);
      var after := JoinExisting(grown, |m.store|, s, role, key, active, now).0;
      AgedTwice(m, grown, after);
      forall i | 0 <= i < |m.store| ensures KeepsSeq(m.store[i], after.store[i]) {
        assert grown.store[i] == m.store[i];
      }
    }
  }

  // ---------- Sequences of operations ----------

  lemma ApplyAges(m: Manager, op: Op, now: nat)
    requires m.RefsOk() && Sound(m, now)
    ensures var after := Apply(m, op, now); Aged(m, after) && SeqKept(m, after)
    ensures !op.JoinOp? ==> Steady(m, Apply(m, op, now))
  {
    hide Body, Aged, SeqKept, NoJoins, Join, Leave, Close, Route, Release, Advance, Cleanup;
    match op
    case JoinOp(id, s, role, offer, creatorIp, active) => JoinAges(m, id, s, role, offer, creatorIp, active, now);
    case LeaveOp(s, id) => LeaveSteady(m, s, id, now);
    case CloseOp(id) => CloseSteady(m, id, now);
    case RouteOp(id, s, data, ip, receivable) => RouteSteady(m, id, s, data, ip, receivable, now);
    case ReleaseOp(s) => ReleaseSteady(m, s, now);
    case AdvanceOp(s) => AdvanceSteady(m, s, now);
    case CleanupOp(ids) => CleanupSteady(m, ids, now);
  }

  lemma CleanupSteady(m: Manager, ids: seq<ChannelId>, now: nat)
    requires m.RefsOk() && Sound(m, now)
    ensures Steady(m, Cleanup(m, ids, now))
  {
    SweepEachSteady(m, ids, now);
    assert Cleanup(m, ids, now).store == SweepEach(m, ids, now).store;
    hide Body;
  }

  lemma {:induction false} ApplyAllSteady(m: Manager, ops: seq<Op>, now: nat)
    requires m.RefsOk() && Sound(m, now)
    requires NoJoinIn(ops)
    ensures Steady(m, ApplyAll(m, ops, now))
    decreases |ops|
  {
    hide Steady, Sound, Apply;
    SteadySelf(m);
    if ops != [] {
      var next := Apply(m, ops[0], now);
      ApplyKeepsSound(m, ops[0], now);
      ApplyAges(m, ops[0], now);
      ApplyAllSteady(next, ops[1..], now);
      SteadyTwice(m, next, ApplyAll(m, ops, now));
    }
  }

  lemma ApplyAllAges(m: Manager, ops: seq<Op>, now: nat)
    requires m.RefsOk() && Sound(m, now) && JoinsFirst(ops)
    ensures var after := ApplyAll(m, ops, now); Aged(m, after) && SeqKept(m, after)
  {
    SteadySelf(m);
    if ops != [] {
      var next := Apply(m, ops[0], now);
      var after := ApplyAll(next, ops[1..], now);
      ApplyKeepsSound(m, ops[0], now);
      ApplyAges(m, ops[0], now);
      ApplyAllSteady(next, ops[1..], now);
      hide Sound, Apply, Aged, SeqKept, NoJoins;
      AgedTwice(m, next, after);
      SeqKeptTwice(m, next, after);
    }
  }
}
