/**
 What each operation adds to the settlement logs. A join, a direct write and a
 promotion hand messages over on one channel object; every other operation
 discards messages or adds nothing.
 */
module ManagerLogs {
  import opened Options
  import opened RelayTypes
  import opened Ledgers
  import opened ManagerSpec
  import opened ManagerSafety
  import opened ManagerOps
  import opened ManagerRouting
  import opened ManagerEffects
  import opened ManagerSteps
  import opened ManagerAging
  import opened ManagerOrder
  import opened ManagerAnswers

  /** The message went to a socket's write or acknowledgement, rather than being discarded. */
  predicate Handing(fate: Fate) {
    fate.Handed? || fate.Promoted? || fate.Returned?
  }

  ghost predicate Discards(c: seq<Settled>, d: seq<Settled>) {
    c <= d && forall i :: |c| <= i < |d| ==> !Handing(d[i].fate)
  }

  /** The logs grow at most by discarded messages. */
  ghost predicate OnlyDiscards(m: Manager, after: Manager) {
    forall ref: nat :: Discards(Log(m, ref), Log(after, ref))
  }

  ghost predicate SameLogs(m: Manager, after: Manager) {
    forall ref: nat :: Log(after, ref) == Log(m, ref)
  }

  /** One log grows, by messages for `role`, all with the same fate; the others stay. */
  ghost predicate HandsOver(m: Manager, after: Manager, ref: nat, role: ClientType, fate: Fate) {
    && Log(m, ref) <= Log(after, ref)
    && (forall i :: |Log(m, ref)| <= i < |Log(after, ref)| ==>
          Log(after, ref)[i].fate == fate && Log(after, ref)[i].message.target == role)
    && (forall other: nat :: other != ref ==> Log(after, other) == Log(m, other))
  }

  /** The messages by which the log at `ref` grew. */
  function Gained(m: Manager, after: Manager, ref: nat): seq<Message>
    requires |Log(m, ref)| <= |Log(after, ref)|
  {
    Plain(Log(after, ref)[|Log(m, ref)|..])
  }

  lemma OnlyDiscardsTwice(a: Manager, b: Manager, c: Manager)
    requires OnlyDiscards(a, b) && OnlyDiscards(b, c)
    ensures OnlyDiscards(a, c)
  {
    forall ref: nat ensures Discards(Log(a, ref), Log(c, ref)) {
      assert Discards(Log(a, ref), Log(b, ref)) && Discards(Log(b, ref), Log(c, ref));
    }
  }

  lemma SameQueuesSameLogs(m: Manager, after: Manager)
    requires SameQueues(m, after)
    ensures SameLogs(m, after)
  {
  }

  lemma GainedTag(m: Manager, after: Manager, ref: nat, out: seq<Message>, fate: Fate)
    requires Log(after, ref) == Log(m, ref) + Tag(out, fate)
    ensures Gained(m, after, ref) == out
  {
    assert Log(after, ref)[|Log(m, ref)|..] == Tag(out, fate);
  }

  lemma SameLogsThen(a: Manager, b: Manager, c: Manager, ref: nat, role: ClientType, fate: Fate)
    requires SameLogs(a, b)
    ensures HandsOver(b, c, ref, role, fate) ==> HandsOver(a, c, ref, role, fate)
    ensures |Log(b, ref)| <= |Log(c, ref)| ==> Gained(a, c, ref) == Gained(b, c, ref)
    ensures SameLogs(b, c) ==> SameLogs(a, c)
    ensures OnlyDiscards(b, c) ==> OnlyDiscards(a, c)
  {
    assert Log(b, ref) == Log(a, ref);
    if OnlyDiscards(b, c) {
      forall x: nat ensures Discards(Log(a, x), Log(c, x)) {
        assert Discards(Log(b, x), Log(c, x));
      }
    }
  }

  lemma ThenSameLogs(a: Manager, b: Manager, c: Manager, ref: nat, role: ClientType, fate: Fate)
    requires SameLogs(b, c)
    ensures HandsOver(a, b, ref, role, fate) ==> HandsOver(a, c, ref, role, fate)
    ensures Log(c, ref) == Log(b, ref)
    ensures |Log(a, ref)| <= |Log(b, ref)| ==> Gained(a, c, ref) == Gained(a, b, ref)
    ensures SameLogs(a, b) || OnlyDiscards(a, b) ==> OnlyDiscards(a, c)
  {
    assert Log(c, ref) == Log(b, ref);
    if OnlyDiscards(a, b) {
      forall x: nat ensures Discards(Log(a, x), Log(c, x)) {
        assert Discards(Log(a, x), Log(b, x)) && Log(c, x) == Log(b, x);
      }
    }
  }

  lemma WithdrawLogs(m: Manager, ref: nat, keep: seq<Message>, out: seq<Message>, role: ClientType, fate: Fate)
    requires ref < |m.store| && forall msg :: msg in out ==> msg.target == role
    ensures var after := Withdraw(m, ref, keep, out, fate);
            HandsOver(m, after, ref, role, fate) && Gained(m, after, ref) == out
  {
    GainedTag(m, Withdraw(m, ref, keep, out, fate), ref, out, fate);
  }

  // ---------- join ----------

  lemma PutSameLogs(m: Manager, ref: nat, c: Chan)
    requires ref < |m.store| && c.settled == m.store[ref].settled
    ensures SameLogs(m, m.Put(ref, c))
  {
  }

  lemma AdmitLogs(m: Manager, ref: nat, s: SocketId, role: ClientType, key: Option<Key>, now: nat)
    requires ref < |m.store|
    ensures var (after, result) := AdmitUnlessFull(m, ref, s, role, key, now);
            if result.Joined? then
              && HandsOver(m, after, ref, role, Returned)
              && Gained(m, after, ref) == For(m.store[ref].buffer, role)
              && result.messages == Payloads(For(m.store[ref].buffer, role))
            else after == m
  {
    hide Withdraw, HandsOver, Gained, SameLogs, Pick, Payloads, Others;
    var c := m.store[ref];
    var seated := m.Put(ref, c.(
      publicKey := if c.publicKey.None? then key else c.publicKey,
      participants := c.participants[s := role],
      lastActivity := now));
    PutSameLogs(m, ref, seated.store[ref]);
    WithdrawLogs(seated, ref, Pick(c.buffer, ForRole(role), false), For(c.buffer, role), role, Returned);
    SameLogsThen(m, seated, WithdrawPicked(seated, ref, ForRole(role), Returned), ref, role, Returned);
  }

  lemma SameLogsSelf(m: Manager)
    ensures SameLogs(m, m) && OnlyDiscards(m, m)
  {
  }

  lemma RivalGoneKeepsLogs(m: Manager, ref: nat, o: SocketId)
    requires m.RefsOk() && ref < |m.store|
    ensures var freed := Release(RemoveParticipant(m, ref, o), o);
            SameLogs(m, freed) && ref < |freed.store| && freed.store[ref].buffer == m.store[ref].buffer
  {
    SameQueuesSameLogs(m, Release(RemoveParticipant(m, ref, o), o));
  }

  lemma JoinExistingLogs(m: Manager, ref: nat, s: SocketId, role: ClientType, key: Option<Key>,
                         active: set<SocketId>, now: nat)
    requires m.RefsOk() && ref < |m.store|
    ensures var (after, result) := JoinExisting(m, ref, s, role, key, active, now);
            if result.Joined? then
              && HandsOver(m, after, ref, role, Returned)
              && Gained(m, after, ref) == For(m.store[ref].buffer, role)
              && result.messages == Payloads(For(m.store[ref].buffer, role))
            else SameLogs(m, after)
  {
    hide AdmitUnlessFull, Pick, HandsOver, Gained, SameLogs, Release, Payloads, Log;
    AdmitLogs(m, ref, s, role, key, now);
    SameLogsSelf(m);
    var rival := Rival(m.store[ref].participants, s, role);
    if rival.Some? {
      var freed := Release(RemoveParticipant(m, ref, rival.value), rival.value);
      RivalGoneKeepsLogs(m, ref, rival.value);
      AdmitLogs(freed, ref, s, role, key, now);
      SameLogsThen(m, freed, AdmitUnlessFull(freed, ref, s, role, key, now).0, ref, role, Returned);
    }
  }

  /** What waits on a channel, nothing if there is no such channel. */
  function Waiting(m: Manager, id: ChannelId): seq<Message>
    requires id in m.channels ==> m.channels[id] < |m.store|
  {
    if id in m.channels then m.At(id).buffer else []
  }

  /** A join that seats hands over what waits for the role and answers with it; any other leaves the logs alone. */
  lemma JoinLogs(m: Manager, id: ChannelId, s: SocketId, role: ClientType, offer: KeyOffer,
                 creatorIp: Option<Ip>, active: set<SocketId>, now: nat)
    requires m.RefsOk()
    ensures var (after, result) := Join(m, id, s, role, offer, creatorIp, active, now);
            var ref := if id in m.channels then m.channels[id] else |m.store|;
            if result.Joined? && !result.terminated then
              && HandsOver(m, after, ref, role, Returned)
              && Gained(m, after, ref) == For(Waiting(m, id), role)
              && result.messages == Payloads(For(Waiting(m, id), role))
            else SameLogs(m, after)
  {
    hide JoinExisting, Pick, HandsOver, Gained, SameLogs, Reseated, SeatedWith;
    var key := CanonicalKey(role, offer);
    SameLogsSelf(m);
    if m.Live(id) {
      JoinExistingLogs(m, m.channels[id], s, role, key, active, now);
      JoinExistingEffect(m, m.channels[id], s, role, key, active, now);
    } else if id !in m.channels {
      var grown := Allocate(m, id, creatorIp, now);
      AllocateLogs(m, id, creatorIp, now);
      JoinExistingLogs(grown, |m.store|, s, role, key, active, now);
      JoinExistingEffect(grown, |m.store|, s, role, key, active, now);
      SameLogsThen(m, grown, JoinExisting(grown, |m.store|, s, role, key, active, now).0, |m.store|, role, Returned);
    }
  }

  lemma AllocateLogs(m: Manager, id: ChannelId, creatorIp: Option<Ip>, now: nat)
    ensures SameLogs(m, Allocate(m, id, creatorIp, now))
  {
  }

  // ---------- routeMessage and advanceDirectDelivery ----------

  lemma DirectLogs(m: Manager, ref: nat, s: SocketId, target: SocketId, msg: Message)
    requires ref < |m.store|
    ensures var after := RouteDirect(m, ref, s, target, msg).0;
            HandsOver(m, after, ref, msg.target, Handed) && |Log(after, ref)| == |Log(m, ref)| + 1
  {
  }

  lemma BufferedLogs(m: Manager, ref: nat, s: SocketId, target: Option<SocketId>, msg: Message)
    requires ref < |m.store|
    ensures OnlyDiscards(m, RouteBuffered(m, ref, s, target, msg).0)
  {
  }

  lemma DispatchLogs(m: Manager, ref: nat, s: SocketId, msg: Message, receivable: set<SocketId>)
    requires ref < |m.store|
    ensures var (after, result) := Dispatch(m, ref, s, msg, receivable);
            if result.target.Some?
            then HandsOver(m, after, ref, msg.target, Handed) && |Log(after, ref)| == |Log(m, ref)| + 1
            else OnlyDiscards(m, after)
  {
    var target := Counterpart(m.store[ref].participants, s);
    if target.Some? {
      DirectLogs(m, ref, s, target.value, msg);
    }
    BufferedLogs(m, ref, s, target, msg);
    BufferedWritesNothing(m, ref, s, target, msg);
    hide RouteDirect, RouteBuffered, FitsDirectly, HandsOver, OnlyDiscards;
    if target.Some? {
      DirectWrites(m, ref, s, target.value, msg);
    }
  }

  lemma DirectWrites(m: Manager, ref: nat, s: SocketId, target: SocketId, msg: Message)
    requires ref < |m.store|
    ensures RouteDirect(m, ref, s, target, msg).1.target == Some(target)
  {
  }

  /** Routing hands over one message when it writes directly, and otherwise at most evicts one. */
  lemma RouteLogs(m: Manager, id: ChannelId, s: SocketId, data: Payload, ip: Ip, receivable: set<SocketId>, now: nat)
    requires m.RefsOk()
    ensures var (after, result) := Route(m, id, s, data, ip, receivable, now);
            if result.target.Some? then
              && HandsOver(m, after, m.channels[id], Other(data.clientType), Handed)
              && |Log(after, m.channels[id])| == |Log(m, m.channels[id])| + 1
            else OnlyDiscards(m, after)
  {
    SameLogsSelf(m);
    hide Dispatch, HandsOver, Discards;
    if SeatedAt(m, id, s) {
      var ref, c := m.channels[id], m.At(id);
      var touched := m.Put(ref, c.(lastActivity := now));
      TouchedDiscards(m, ref, now);
      assert SameLogs(m, touched);
      hide OnlyDiscards, SameLogs;
      if data.bytes.Some? && data.clientType == c.participants[s] {
        var msg := Message(data, Other(c.participants[s]), now, data.bytes.value, ip);
        DispatchLogs(touched, ref, s, msg, receivable);
        SameLogsThen(m, touched, Dispatch(touched, ref, s, msg, receivable).0, ref, msg.target, Handed);
      }
    }
  }

  lemma TouchedDiscards(m: Manager, ref: nat, now: nat)
    requires ref < |m.store|
    ensures OnlyDiscards(m, m.Put(ref, m.store[ref].(lastActivity := now)))
    ensures Log(m.Put(ref, m.store[ref].(lastActivity := now)), ref) == Log(m, ref)
  {
  }

  lemma BufferedWritesNothing(m: Manager, ref: nat, s: SocketId, target: Option<SocketId>, msg: Message)
    requires ref < |m.store|
    ensures RouteBuffered(m, ref, s, target, msg).1.target.None?
  {
  }

  lemma PromoteLogs(m: Manager, ref: nat, s: SocketId, i: nat)
    requires ref < |m.store| && i < |m.store[ref].buffer|
    ensures var after := Promote(m, ref, s, i);
            HandsOver(m, after, ref, m.store[ref].buffer[i].target, Promoted) && |Log(after, ref)| == |Log(m, ref)| + 1
  {
  }

  /** Advancing hands over one message for the socket's role, or none. */
  lemma AdvanceLogs(m: Manager, s: SocketId)
    requires m.RefsOk()
    ensures var (after, next) := Advance(m, s);
            if next.Some? then
              var ref := m.deliveries[s].channel;
              && HandsOver(m, after, ref, m.store[ref].participants[s], Promoted)
              && |Log(after, ref)| == |Log(m, ref)| + 1
            else SameLogs(m, after)
  {
    hide Promote;
    if s in m.deliveries {
      var ref, free := m.deliveries[s].channel, Release(m, s);
      assert SameQueues(m, free);
      SameQueuesSameLogs(m, free);
      var c := m.store[ref];
      if s in c.participants && FirstFor(c.buffer, c.participants[s]) < |c.buffer| {
        PromoteLogs(free, ref, s, FirstFor(c.buffer, c.participants[s]));
      }
    }
  }

  // ---------- Everything else ----------

  lemma LeaveLogs(m: Manager, s: SocketId, id: ChannelId, now: nat)
    requires m.RefsOk()
    ensures SameLogs(m, Leave(m, s, id, now).0)
  {
  }

  lemma ReleaseLogs(m: Manager, s: SocketId)
    requires m.RefsOk()
    ensures SameLogs(m, Release(m, s))
  {
    SameQueuesSameLogs(m, Release(m, s));
  }

  lemma CloseLogs(m: Manager, id: ChannelId, now: nat)
    requires m.RefsOk()
    ensures OnlyDiscards(m, Close(m, id, now).0)
  {
    if id in m.channels && !m.At(id).terminated {
      var t := Terminate(m, m.channels[id], now);
      EvictKeepsStore(t.(terminatedOrder := t.terminatedOrder + [id]));
    }
  }

  lemma SweepOneLogs(m: Manager, id: ChannelId, now: nat)
    requires m.RefsOk()
    ensures OnlyDiscards(m, SweepOne(m, id, now))
  {
  }

  lemma {:induction false} SweepEachLogs(m: Manager, ids: seq<ChannelId>, now: nat)
    requires m.RefsOk()
    ensures OnlyDiscards(m, SweepEach(m, ids, now))
  {
    if ids != [] {
      hide SweepOne, Discards;
      var init := SweepEach(m, ids[..|ids| - 1], now);
      SweepEachLogs(m, ids[..|ids| - 1], now);
      SweepOneLogs(init, ids[|ids| - 1], now);
      OnlyDiscardsTwice(m, init, SweepEach(m, ids, now));
    }
  }

  lemma ApplyOnlyDiscards(m: Manager, op: Op, now: nat)
    requires m.RefsOk() && op.Subtracts()
    ensures OnlyDiscards(m, Apply(m, op, now))
  {
    match op
    case LeaveOp(s, id) =>
      LeaveLogs(m, s, id, now);
      hide Leave;
    case CloseOp(id) =>
      CloseLogs(m, id, now);
      hide Close;
    case ReleaseOp(s) =>
      ReleaseLogs(m, s);
      hide Release;
    case CleanupOp(ids) =>
      SweepEachLogs(m, ids, now);
      assert Cleanup(m, ids, now).store == SweepEach(m, ids, now).store;
      hide SweepEach;
  }

  /** Operations that seat nobody and hand nothing to anybody leave the logs as they are but for discards. */
  lemma {:induction false} ApplyAllOnlyDiscards(m: Manager, ops: seq<Op>, now: nat)
    requires m.RefsOk() && OnlySubtract(ops)
    ensures OnlyDiscards(m, ApplyAll(m, ops, now))
    decreases |ops|
  {
    hide Apply, Discards;
    if ops == [] {
      SameLogsSelf(m);
    } else {
      ApplyOnlyDiscards(m, ops[0], now);
      ApplyAllOnlyDiscards(Apply(m, ops[0], now), ops[1..], now);
      OnlyDiscardsTwice(m, Apply(m, ops[0], now), ApplyAll(m, ops, now));
    }
  }
}
