/**
 What holds between two states of one run: dispositions are final, terminated
 channel objects stay empty, a bound key binds every later dApp, and sequence
 numbers accepted during one unbroken membership strictly increase.
 */
module RelayHistory {
  import opened Options
  import opened RelayTypes
  import opened ManagerSpec
  import opened ManagerSafety
  import opened ManagerEffects
  import opened ManagerSteps
  import opened ManagerAging
  import opened RelaySpec
  import opened RelaySteps
  import opened RelaySafety

  /** The state after the first `k` events of a run. */
  ghost function StateAt(limits: Limits, run: seq<Timed>, k: nat): (r: Relay)
    requires k <= |run|
    ensures r.m.RefsOk()
  {
    Run(EmptyRelay(limits), run[..k])
  }

  lemma StateNext(limits: Limits, run: seq<Timed>, k: nat)
    requires k < |run|
    ensures StateAt(limits, run, k + 1) == Step(StateAt(limits, run, k), run[k])
  {
    hide Step;
    assert run[..k + 1][..k] == run[..k];
  }

  lemma StepAges(r: Relay, t: Timed)
    requires r.m.RefsOk() && Inv(r, r.clock)
    ensures Aged(r.m, Step(r, t).m) && SeqKept(r.m, Step(r, t).m)
  {
    hide Sound, Handle, ApplyAll, Aged, SeqKept;
    var now := r.clock + t.elapsed;
    InvLater(r, r.clock, now);
    var ops := HandleOps(r, t.event, now);
    ApplyAllAges(r.m, ops, now);
  }

  /** Between any two states of a run every channel object ages. */
  lemma {:induction false} RunAges(limits: Limits, run: seq<Timed>, i: nat, j: nat)
    requires i <= j <= |run|
    ensures Aged(StateAt(limits, run, i).m, StateAt(limits, run, j).m)
    decreases j
  {
    hide StateAt, Step, Inv, Aged;
    if i == j {
      SteadySelf(StateAt(limits, run, i).m);
    } else {
      RunAges(limits, run, i, j - 1);
      StateAtInv(limits, run, j - 1);
      StateNext(limits, run, j - 1);
      StepAges(StateAt(limits, run, j - 1), run[j - 1]);
      AgedTwice(StateAt(limits, run, i).m, StateAt(limits, run, j - 1).m, StateAt(limits, run, j).m);
    }
  }

  lemma StateAtInv(limits: Limits, run: seq<Timed>, k: nat)
    requires k <= |run|
    ensures Inv(StateAt(limits, run, k), StateAt(limits, run, k).clock)
  {
    hide Inv, Run;
    RunKeepsInv(limits, run[..k]);
  }

  // ---------- Dispositions and tombstones ----------

  /** Every accepted message is buffered or settled exactly once, and what was settled stays settled as it was. */
  lemma DispositionIsFinal(limits: Limits, run: seq<Timed>, i: nat, j: nat, ref: nat)
    requires i <= j <= |run| && ref < |StateAt(limits, run, i).m.store|
    ensures ref < |StateAt(limits, run, j).m.store|
    ensures var c, d := StateAt(limits, run, i).m.store[ref], StateAt(limits, run, j).m.store[ref];
            && c.accepted <= d.accepted
            && c.settled <= d.settled
            && multiset(d.accepted) == multiset(Plain(d.settled)) + multiset(d.buffer)
  {
    RunAges(limits, run, i, j);
    StateAtInv(limits, run, j);
    hide StateAt;
    assert ChanOk(StateAt(limits, run, j).m.store[ref], StateAt(limits, run, j).clock);
  }

  /** A terminated object never again has participants, messages, a key or routing. */
  lemma TerminatedForever(limits: Limits, run: seq<Timed>, i: nat, j: nat, ref: nat)
    requires i <= j <= |run| && ref < |StateAt(limits, run, i).m.store|
    requires StateAt(limits, run, i).m.store[ref].terminated
    ensures ref < |StateAt(limits, run, j).m.store|
    ensures var c, d := StateAt(limits, run, i).m.store[ref], StateAt(limits, run, j).m.store[ref];
            && d.terminated && Vacant(d) && d.publicKey == None
            && d.accepted == c.accepted && d.settled == c.settled
            && d.inflightBytes <= c.inflightBytes
  {
    RunAges(limits, run, i, j);
    StateAtInv(limits, run, j);
    hide StateAt;
    assert ChanOk(StateAt(limits, run, j).m.store[ref], StateAt(limits, run, j).clock);
  }

  // ---------- Keys ----------

  /** The key a join finds on its channel. */
  ghost function BoundKey(m: Manager, id: ChannelId): Option<Key>
    requires m.RefsOk()
  {
    if id in m.channels then m.At(id).publicKey else None
  }

  lemma AdmitBindsKey(m: Manager, ref: nat, s: SocketId, role: ClientType, key: Option<Key>, now: nat)
    requires ref < |m.store|
    ensures var (after, result) := AdmitUnlessFull(m, ref, s, role, key, now);
            result.Joined? ==>
              var bound := m.store[ref].publicKey;
              && ref < |after.store|
              && result.publicKey == after.store[ref].publicKey == (if bound.Some? then bound else key)
              && (bound.Some? && key.Some? ==> bound == key)
  {
  }

  lemma JoinExistingBindsKey(m: Manager, ref: nat, s: SocketId, role: ClientType, key: Option<Key>,
                             active: set<SocketId>, now: nat)
    requires m.RefsOk() && ref < |m.store|
    ensures var (after, result) := JoinExisting(m, ref, s, role, key, active, now);
            result.Joined? ==>
              var bound := m.store[ref].publicKey;
              && ref < |after.store|
              && result.publicKey == after.store[ref].publicKey == (if bound.Some? then bound else key)
              && (bound.Some? && role.Dapp? ==> bound == key)
  {
    hide AdmitUnlessFull;
    AdmitBindsKey(m, ref, s, role, key, now);
    var rival := Rival(m.store[ref].participants, s, role);
    if rival.Some? {
      var freed := Release(RemoveParticipant(m, ref, rival.value), rival.value);
      assert freed.store[ref].publicKey == m.store[ref].publicKey;
      AdmitBindsKey(freed, ref, s, role, key, now);
    }
  }

  /** A successful join binds the presented key to an unbound channel; a dApp on a bound one presented that key. */
  lemma JoinBindsKey(m: Manager, id: ChannelId, s: SocketId, role: ClientType, offer: KeyOffer,
                     creatorIp: Option<Ip>, active: set<SocketId>, now: nat)
    requires m.RefsOk()
    ensures var (after, result) := Join(m, id, s, role, offer, creatorIp, active, now);
            Seated(result) ==>
              var bound, key := BoundKey(m, id), CanonicalKey(role, offer);
              && id in after.channels
              && result.publicKey == after.At(id).publicKey == (if bound.Some? then bound else key)
              && (bound.Some? && role.Dapp? ==> offer == Decoded(bound.value))
  {
    hide JoinExisting;
    var key := CanonicalKey(role, offer);
    JoinKeepsObjects(m, id, s, role, offer, creatorIp, active, now);
    if id in m.channels {
      JoinExistingBindsKey(m, m.channels[id], s, role, key, active, now);
    } else {
      var grown := Allocate(m, id, creatorIp, now);
      JoinExistingBindsKey(grown, |m.store|, s, role, key, active, now);
      JoinExistingEffect(grown, |m.store|, s, role, key, active, now);
    }
  }

  /** Once an object carries a key, every dApp that later joins it presented that key, and every wallet is told it. */
  lemma LaterJoinsShareKey(limits: Limits, run: seq<Timed>, i: nat, ref: nat, key: Key, id: ChannelId, s: SocketId,
                           role: ClientType, offer: KeyOffer, creatorIp: Option<Ip>, active: set<SocketId>, now: nat)
    requires i <= |run| && ref < |StateAt(limits, run, i).m.store|
    requires StateAt(limits, run, i).m.store[ref].publicKey == Some(key)
    requires var m := StateAt(limits, run, |run|).m; id in m.channels && m.channels[id] == ref
    ensures var result := Join(StateAt(limits, run, |run|).m, id, s, role, offer, creatorIp, active, now).1;
            Seated(result) ==> result.publicKey == Some(key) && (role.Dapp? ==> offer == Decoded(key))
  {
    RunAges(limits, run, i, |run|);
    var m := StateAt(limits, run, |run|).m;
    JoinBindsKey(m, id, s, role, offer, creatorIp, active, now);
    hide StateAt, JoinExisting, Aged;
    assert Ages(StateAt(limits, run, i).m.store[ref], m.store[ref]) by {
      AgedAt(StateAt(limits, run, i).m, m, ref);
    }
  }

  lemma AgedAt(m: Manager, after: Manager, ref: nat)
    requires Aged(m, after) && ref < |m.store|
    ensures ref < |after.store| && Ages(m.store[ref], after.store[ref])
  {
  }

  // ---------- Sequence numbers ----------

  /** The event routes a message of `s` with sequence number `n` on the object at `ref`. */
  ghost predicate Sequences(r: Relay, e: Event, now: nat, ref: nat, s: SocketId, n: nat)
    requires r.m.RefsOk()
  {
    && e.MessageSent? && e.s == s && e.data.seqNo == Some(n)
    && s in r.sockets && s in r.sessions
    && e.id in r.m.channels && r.m.channels[e.id] == ref
    && Route(r.m, e.id, s, e.data, r.sessions[s].ip, r.Receivable(), now).1.error.None?
  }

  lemma DirectRecords(m: Manager, ref: nat, s: SocketId, target: SocketId, msg: Message)
    requires ref < |m.store| && msg.data.seqNo.Some?
    ensures var after := RouteDirect(m, ref, s, target, msg).0;
            ref < |after.store| && after.store[ref].seqNumbers == m.store[ref].seqNumbers[s := msg.data.seqNo.value]
  {
  }

  lemma BufferedRecords(m: Manager, ref: nat, s: SocketId, target: Option<SocketId>, msg: Message)
    requires ref < |m.store| && msg.data.seqNo.Some?
    ensures var (after, result) := RouteBuffered(m, ref, s, target, msg);
            && ref < |after.store|
            && after.store[ref].seqNumbers ==
               if result.error.None? then m.store[ref].seqNumbers[s := msg.data.seqNo.value]
               else m.store[ref].seqNumbers
  {
  }

  /** Routing accepts a number only above the last one recorded for the sender, and then records it. */
  lemma AcceptedExceedsRecorded(m: Manager, id: ChannelId, s: SocketId, data: Payload, ip: Ip,
                                receivable: set<SocketId>, now: nat)
    requires m.RefsOk() && data.seqNo.Some?
    requires Route(m, id, s, data, ip, receivable, now).1.error.None?
    ensures id in m.channels
    ensures s in m.At(id).seqNumbers ==> m.At(id).seqNumbers[s] < data.seqNo.value
    ensures var after := Route(m, id, s, data, ip, receivable, now).0;
            && m.channels[id] < |after.store|
            && after.store[m.channels[id]].seqNumbers == m.At(id).seqNumbers[s := data.seqNo.value]
  {
    hide RouteDirect, RouteBuffered, FitsDirectly;
    var ref, c := m.channels[id], m.At(id);
    var touched := m.Put(ref, c.(lastActivity := now));
    var msg := Message(data, Other(c.participants[s]), now, data.bytes.value, ip);
    var target := Counterpart(c.participants, s);
    if target.Some? {
      DirectRecords(touched, ref, s, target.value, msg);
    }
    BufferedRecords(touched, ref, s, target, msg);
  }

  lemma DisconnectSteady(r: Relay, s: SocketId, now: nat)
    requires r.m.RefsOk() && Sound(r.m, now)
    ensures Steady(r.m, Disconnect(r, s, now).m)
  {
    hide Sound, Disconnect, ApplyAll, Steady;
    var ops := DisconnectOps(r, s, now);
    ApplyAllSteady(r.m, ops, now);
  }

  /** After routing, a message event changes the manager only by disconnecting a socket. */
  lemma MessageTailSteady(r: Relay, s: SocketId, id: ChannelId, data: Payload, now: nat)
    requires r.m.RefsOk() && Inv(r, now) && s in r.sockets && s in r.sessions
    ensures Steady(Route(r.m, id, s, data, r.sessions[s].ip, r.Receivable(), now).0, OnMessage(r, s, id, data, now).0.m)
  {
    hide Sound, Route, Disconnect, Steady;
    var (m', result) := Route(r.m, id, s, data, r.sessions[s].ip, r.Receivable(), now);
    ApplyKeepsSound(r.m, RouteOp(id, s, data, r.sessions[s].ip, r.Receivable()), now);
    SteadySelf(m');
    DirectTargetArms(r, s, id, data, now);
    if result.backpressured.Some? {
      DisconnectSteady(r.(m := m'), result.backpressured.value, now);
    }
  }

  lemma SeqKeptAt(m: Manager, after: Manager, ref: nat, s: SocketId)
    requires SeqKept(m, after) && ref < |m.store|
    requires s in m.store[ref].participants && s in m.store[ref].seqNumbers
    requires s in after.store[ref].participants
    ensures s in after.store[ref].seqNumbers && m.store[ref].seqNumbers[s] <= after.store[ref].seqNumbers[s]
  {
    assert KeepsSeq(m.store[ref], after.store[ref]);
  }

  ghost predicate Holds(m: Manager, ref: nat, s: SocketId) {
    ref < |m.store| && s in m.store[ref].participants
  }

  /** An event that sequences `n` found a smaller record, and its routing leaves `n` recorded. */
  lemma SequencesFacts(r: Relay, e: Event, now: nat, ref: nat, s: SocketId, n: nat)
    requires r.m.RefsOk() && Sequences(r, e, now, ref, s, n) && Holds(r.m, ref, s)
    ensures s in r.m.store[ref].seqNumbers ==> r.m.store[ref].seqNumbers[s] < n
    ensures var m' := Route(r.m, e.id, s, e.data, r.sessions[s].ip, r.Receivable(), now).0;
            Holds(m', ref, s) && s in m'.store[ref].seqNumbers && m'.store[ref].seqNumbers[s] == n
  {
    hide Route;
    AcceptedExceedsRecorded(r.m, e.id, s, e.data, r.sessions[s].ip, r.Receivable(), now);
    RouteEffect(r.m, e.id, s, e.data, r.sessions[s].ip, r.Receivable(), now);
  }

  /** The number an event accepts is recorded in the state it leaves, if its sender is still seated there. */
  lemma SequencedIsRecorded(r: Relay, t: Timed, ref: nat, s: SocketId, n: nat)
    requires r.m.RefsOk() && Inv(r, r.clock) && Sequences(r, t.event, r.clock + t.elapsed, ref, s, n)
    requires Holds(r.m, ref, s) && Holds(Step(r, t).m, ref, s)
    ensures var m := Step(r, t).m; s in m.store[ref].seqNumbers && n <= m.store[ref].seqNumbers[s]
  {
    hide Inv, Route, OnMessage, Aged, SeqKept, NoJoins;
    var now, e := r.clock + t.elapsed, t.event;
    InvLater(r, r.clock, now);
    SequencesFacts(r, e, now, ref, s, n);
    MessageTailSteady(r, s, e.id, e.data, now);
    SeqKeptAt(Route(r.m, e.id, s, e.data, r.sessions[s].ip, r.Receivable(), now).0, Step(r, t).m, ref, s);
  }

  /** `s` is a participant of the object at `ref` in every state from `i` to `j`. */
  ghost predicate Unbroken(limits: Limits, run: seq<Timed>, i: nat, j: nat, ref: nat, s: SocketId)
    requires j <= |run|
  {
    forall k :: i <= k <= j ==> Holds(StateAt(limits, run, k).m, ref, s)
  }

  /** During one unbroken membership the recorded sequence number never falls. */
  lemma {:induction false} RecordNeverFalls(limits: Limits, run: seq<Timed>, i: nat, j: nat, ref: nat, s: SocketId)
    requires i <= j <= |run| && Unbroken(limits, run, i, j, ref, s)
    requires s in StateAt(limits, run, i).m.store[ref].seqNumbers
    ensures s in StateAt(limits, run, j).m.store[ref].seqNumbers
    ensures StateAt(limits, run, i).m.store[ref].seqNumbers[s] <= StateAt(limits, run, j).m.store[ref].seqNumbers[s]
    decreases j
  {
    hide StateAt, Step, Inv, SeqKept, Aged;
    if i < j {
      RecordNeverFalls(limits, run, i, j - 1, ref, s);
      StateAtInv(limits, run, j - 1);
      StateNext(limits, run, j - 1);
      StepAges(StateAt(limits, run, j - 1), run[j - 1]);
      assert Holds(StateAt(limits, run, j - 1).m, ref, s) && Holds(StateAt(limits, run, j).m, ref, s);
      SeqKeptAt(StateAt(limits, run, j - 1).m, StateAt(limits, run, j).m, ref, s);
    }
  }

  ghost predicate SequencesAt(limits: Limits, run: seq<Timed>, k: nat, ref: nat, s: SocketId, n: nat)
    requires k < |run|
  {
    var r := StateAt(limits, run, k);
    Sequences(r, run[k].event, r.clock + run[k].elapsed, ref, s, n)
  }

  /** During one unbroken membership the accepted sequence numbers strictly increase. */
  lemma AcceptedStrictlyIncrease(limits: Limits, run: seq<Timed>, i: nat, j: nat, ref: nat, s: SocketId, a: nat, b: nat)
    requires i < j < |run| && Unbroken(limits, run, i, j, ref, s)
    requires SequencesAt(limits, run, i, ref, s, a) && SequencesAt(limits, run, j, ref, s, b)
    ensures a < b
  {
    hide StateAt, Inv, Step, Sequences;
    var before, after, last := StateAt(limits, run, i), StateAt(limits, run, i + 1), StateAt(limits, run, j);
    StateAtInv(limits, run, i);
    StateNext(limits, run, i);
    assert Holds(before.m, ref, s) && Holds(after.m, ref, s) && Holds(last.m, ref, s);
    SequencedIsRecorded(before, run[i], ref, s, a);
    RecordNeverFalls(limits, run, i + 1, j, ref, s);
    SequencesFacts(last, run[j].event, last.clock + run[j].elapsed, ref, s, b);
  }

  // ---------- Failures ----------

  /** A rejected message changes nothing but the channel's last activity. */
  lemma RejectedRouteOnlyTouches(m: Manager, id: ChannelId, s: SocketId, data: Payload, ip: Ip,
                                 receivable: set<SocketId>, now: nat)
    requires m.RefsOk() && Route(m, id, s, data, ip, receivable, now).1.error.Some?
    ensures var after := Route(m, id, s, data, ip, receivable, now).0;
            after == m || (id in m.channels && after == m.Put(m.channels[id], m.At(id).(lastActivity := now)))
  {
    hide FitsDirectly, BudgetError;
  }

  /** A refused or tombstoned join leaves the socket's membership, and its session's channel, as they were. */
  lemma FailedSeatKeepsMembership(r: Relay, s: SocketId, id: ChannelId, role: ClientType, offer: KeyOffer,
                                  switching: bool, inRoom: bool, wantsAck: bool, now: nat)
    requires Inv(r, now) && s in r.sessions && !Seated(SeatResult(r, s, id, role, offer, now).1)
    ensures var after := Seat(r, s, id, role, offer, switching, inRoom, wantsAck, now);
            && after.sessions[s].current == r.sessions[s].current
            && (forall x: ChannelId :: SeatedAt(after.m, x, s) <==> SeatedAt(r.m, x, s))
  {
    JoinEffect(r.m, id, s, role, offer, Some(r.sessions[s].ip), r.sockets.Keys, now);
    hide Join;
  }
}
