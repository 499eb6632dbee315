/**
 The manager's operations as one step relation, so that a property proved of
 each operation holds along any sequence of them.
 */
module ManagerSteps {
  import opened Options
  import opened RelayTypes
  import opened Ledgers
  import opened ManagerSpec
  import opened ManagerSafety
  import opened ManagerOps
  import opened ManagerRouting

  datatype Op =
    | JoinOp(id: ChannelId, s: SocketId, role: ClientType, offer: KeyOffer, creatorIp: Option<Ip>,
             active: set<SocketId>)
    | LeaveOp(s: SocketId, id: ChannelId)
    | CloseOp(id: ChannelId)
    | RouteOp(id: ChannelId, s: SocketId, data: Payload, ip: Ip, receivable: set<SocketId>)
    | ReleaseOp(s: SocketId)
    | AdvanceOp(s: SocketId)
    | CleanupOp(ids: seq<ChannelId>)
  {
    /** It seats nobody and hands nothing to anybody. */
    predicate Subtracts() {
      LeaveOp? || CloseOp? || ReleaseOp? || CleanupOp?
    }
  }

  ghost function Apply(m: Manager, op: Op, now: nat): (after: Manager)
    requires m.RefsOk()
    ensures after.RefsOk()
  {
    match op
    case JoinOp(id, s, role, offer, creatorIp, active) => Join(m, id, s, role, offer, creatorIp, active, now).0
    case LeaveOp(s, id) => Leave(m, s, id, now).0
    case CloseOp(id) => Close(m, id, now).0
    case RouteOp(id, s, data, ip, receivable) => Route(m, id, s, data, ip, receivable, now).0
    case ReleaseOp(s) => Release(m, s)
    case AdvanceOp(s) => Advance(m, s).0
    case CleanupOp(ids) => Cleanup(m, ids, now)
  }

  ghost function ApplyAll(m: Manager, ops: seq<Op>, now: nat): (after: Manager)
    requires m.RefsOk()
    ensures after.RefsOk()
    decreases |ops|
  {
    if ops == [] then m else ApplyAll(Apply(m, ops[0], now), ops[1..], now)
  }

  lemma {:induction false} ApplyAllConcat(m: Manager, a: seq<Op>, b: seq<Op>, now: nat)
    requires m.RefsOk()
    ensures ApplyAll(m, a + b, now) == ApplyAll(ApplyAll(m, a, now), b, now)
    decreases |a|
  {
    hide Apply;
    if a == [] {
      assert a + b == b;
    } else {
      assert (a + b)[1..] == a[1..] + b;
      ApplyAllConcat(Apply(m, a[0], now), a[1..], b, now);
    }
  }

  lemma ApplyOne(m: Manager, op: Op, now: nat)
    requires m.RefsOk()
    ensures ApplyAll(m, [op], now) == Apply(m, op, now)
  {
    hide Apply;
    assert [op][1..] == [];
  }

  ghost predicate NoJoinIn(ops: seq<Op>) {
    forall i :: 0 <= i < |ops| ==> !ops[i].JoinOp?
  }

  ghost predicate NoRouteIn(ops: seq<Op>) {
    forall i :: 0 <= i < |ops| ==> !ops[i].RouteOp?
  }

  ghost predicate OnlySubtract(ops: seq<Op>) {
    forall i :: 0 <= i < |ops| ==> ops[i].Subtracts()
  }

  /** Only the first of these operations may be a join. */
  ghost predicate JoinsFirst(ops: seq<Op>) {
    forall i :: 1 <= i < |ops| ==> !ops[i].JoinOp?
  }

  // ---------- Sound ----------

  lemma ApplyKeepsSound(m: Manager, op: Op, now: nat)
    requires m.RefsOk() && Sound(m, now)
    ensures Sound(Apply(m, op, now), now)
  {
    hide Sound, Join, Leave, Close, Route, Release, Advance, Cleanup;
    match op
    case JoinOp(id, s, role, offer, creatorIp, active) => JoinKeepsSound(m, id, s, role, offer, creatorIp, active, now);
    case LeaveOp(s, id) => LeaveKeepsSound(m, s, id, now);
    case CloseOp(id) => CloseKeepsSound(m, id, now);
    case RouteOp(id, s, data, ip, receivable) => RouteKeepsSound(m, id, s, data, ip, receivable, now);
    case ReleaseOp(s) => ReleaseKeepsSound(m, s, now);
    case AdvanceOp(s) => AdvanceKeepsSound(m, s, now);
    case CleanupOp(ids) => CleanupKeepsSound(m, ids, now);
  }

  lemma {:induction false} ApplyAllKeepsSound(m: Manager, ops: seq<Op>, now: nat)
    requires m.RefsOk() && Sound(m, now)
    ensures Sound(ApplyAll(m, ops, now), now)
    decreases |ops|
  {
    hide Sound, Apply;
    if ops != [] {
      ApplyKeepsSound(m, ops[0], now);
      ApplyAllKeepsSound(Apply(m, ops[0], now), ops[1..], now);
    }
  }

  // ---------- Limits ----------

  lemma {:induction false} EvictKeepsLimits(m: Manager)
    requires m.RefsOk()
    ensures EvictTombstones(m).limits == m.limits
    decreases |m.terminatedOrder|
  {
    if |m.terminatedOrder| > MAX_TOMBSTONES {
      var oldest := m.terminatedOrder[0];
      var popped := m.(terminatedOrder := m.terminatedOrder[1..]);
      EvictKeepsLimits(if oldest in m.channels && m.At(oldest).terminated then Unmap(popped, oldest) else popped);
    }
  }

  lemma {:induction false} SweepEachKeepsLimits(m: Manager, ids: seq<ChannelId>, now: nat)
    requires m.RefsOk()
    ensures SweepEach(m, ids, now).limits == m.limits
  {
    if ids != [] {
      SweepEachKeepsLimits(m, ids[..|ids| - 1], now);
    }
  }

  lemma RouteKeepsLimits(m: Manager, id: ChannelId, s: SocketId, data: Payload, ip: Ip, receivable: set<SocketId>,
                         now: nat)
    requires m.RefsOk()
    ensures Route(m, id, s, data, ip, receivable, now).0.limits == m.limits
  {
    hide FitsDirectly, BudgetError;
  }

  lemma JoinKeepsLimits(m: Manager, id: ChannelId, s: SocketId, role: ClientType, offer: KeyOffer,
                        creatorIp: Option<Ip>, active: set<SocketId>, now: nat)
    requires m.RefsOk()
    ensures Join(m, id, s, role, offer, creatorIp, active, now).0.limits == m.limits
  {
    hide JoinExisting;
    var key := CanonicalKey(role, offer);
    if id in m.channels {
      JoinExistingQuiet(m, m.channels[id], s, role, key, active, now);
    } else {
      JoinExistingQuiet(Allocate(m, id, creatorIp, now), |m.store|, s, role, key, active, now);
    }
  }

  lemma ApplyKeepsLimits(m: Manager, op: Op, now: nat)
    requires m.RefsOk()
    ensures Apply(m, op, now).limits == m.limits
  {
    match op
    case JoinOp(id, s, role, offer, creatorIp, active) =>
      JoinKeepsLimits(m, id, s, role, offer, creatorIp, active, now);
      hide Join;
    case LeaveOp(s, id) =>
    case CloseOp(id) =>
      if m.Live(id) {
        var t := Terminate(m, m.channels[id], now);
        EvictKeepsLimits(t.(terminatedOrder := t.terminatedOrder + [id]));
      }
    case RouteOp(id, s, data, ip, receivable) =>
      RouteKeepsLimits(m, id, s, data, ip, receivable, now);
      hide Route;
    case ReleaseOp(s) =>
    case AdvanceOp(s) =>
    case CleanupOp(ids) => SweepEachKeepsLimits(m, ids, now);
  }

  lemma {:induction false} ApplyAllKeepsLimits(m: Manager, ops: seq<Op>, now: nat)
    requires m.RefsOk()
    ensures ApplyAll(m, ops, now).limits == m.limits
    decreases |ops|
  {
    hide Apply;
    if ops != [] {
      ApplyKeepsLimits(m, ops[0], now);
      ApplyAllKeepsLimits(Apply(m, ops[0], now), ops[1..], now);
    }
  }
}
