/** What the invariant says of every run, spelled out in sums, maps and sequences. */
module RelayTheorems {
  import opened Options
  import opened RelayTypes
  import opened Ledgers
  import opened ManagerSpec
  import opened Conservation
  import opened ManagerSafety
  import opened ManagerEffects
  import opened ManagerSteps
  import opened RelaySpec
  import opened RelaySteps
  import opened RelaySafety

  /** The relay after a run of events from the start. */
  ghost function After(limits: Limits, run: seq<Timed>): (r: Relay)
    ensures r.m.RefsOk()
  {
    Run(EmptyRelay(limits), run)
  }

  lemma StepKeepsLimits(r: Relay, t: Timed)
    requires r.m.RefsOk()
    ensures Step(r, t).m.limits == r.m.limits
  {
    hide Handle, ApplyAll;
    var ops := HandleOps(r, t.event, r.clock + t.elapsed);
    ApplyAllKeepsLimits(r.m, ops, r.clock + t.elapsed);
  }

  lemma {:induction false} RunKeepsLimits(limits: Limits, run: seq<Timed>)
    ensures After(limits, run).m.limits == limits
  {
    if run != [] {
      hide Step;
      RunKeepsLimits(limits, run[..|run| - 1]);
      StepKeepsLimits(After(limits, run[..|run| - 1]), run[|run| - 1]);
    }
  }

  lemma AfterFacts(limits: Limits, run: seq<Timed>)
    ensures var r := After(limits, run);
            && r.m.limits == limits && Body(r.m, r.clock) && Lifecycle(r.m) && Tidy(r)
  {
    hide Run, Body, Lifecycle, Tidy;
    RunKeepsInv(limits, run);
    RunKeepsLimits(limits, run);
  }

  /** In every reachable state each ledger is the sum it stands for, and an address is listed exactly if charged. */
  lemma LedgersAreSums(limits: Limits, run: seq<Timed>, ref: nat, ip: Ip)
    ensures var m := After(limits, run).m;
            && m.ledger.buffered == StoreBytes(m.store, None)
            && m.ledger.inflight == Reserved(m.deliveries, Everything)
            && AtIp(m.ledger.byIp, ip) == StoreBytes(m.store, Some(ip)) + Reserved(m.deliveries, FromIp(ip))
            && (ip in m.ledger.byIp <==> StoreBytes(m.store, Some(ip)) + Reserved(m.deliveries, FromIp(ip)) > 0)
            && (ref < |m.store| ==>
                  && m.store[ref].bufferedBytes == Bytes(m.store[ref].buffer, None)
                  && m.store[ref].inflightBytes == Reserved(m.deliveries, OnChannel(ref)))
  {
    hide After, Lifecycle, Tidy, Shape, Budgets;
    AfterFacts(limits, run);
    var m := After(limits, run).m;
    IpEntryIffCharged(m, ip);
    assert IpBalanced(m, ip);
  }

  /** In every reachable state the bytes buffered and in flight keep all three budgets, and buffers stay short. */
  lemma BudgetsHold(limits: Limits, run: seq<Timed>, ref: nat, ip: Ip)
    ensures var m := After(limits, run).m;
            && StoreBytes(m.store, None) + Reserved(m.deliveries, Everything) <= limits.total
            && StoreBytes(m.store, Some(ip)) + Reserved(m.deliveries, FromIp(ip)) <= limits.perIp
            && (ref < |m.store| ==>
                  && Bytes(m.store[ref].buffer, None) + Reserved(m.deliveries, OnChannel(ref)) <= limits.perChannel
                  && |m.store[ref].buffer| <= MAX_BUFFERED_MESSAGES)
  {
    LedgersAreSums(limits, run, ref, ip);
    hide After, Lifecycle, Tidy, Conserved;
    AfterFacts(limits, run);
    var m := After(limits, run).m;
    assert IpWithinBudget(m, ip);
    assert ref < |m.store| ==> ChanOk(m.store[ref], After(limits, run).clock);
  }

  /** In every reachable state the FIFO lists exactly the tombstones, each once, oldest first, within the cap. */
  lemma FifoIsTheTombstones(limits: Limits, run: seq<Timed>)
    ensures var m := After(limits, run).m;
            && (forall id :: id in m.terminatedOrder <==> id in m.channels && m.At(id).terminated)
            && (forall i, j :: 0 <= i < j < |m.terminatedOrder| ==>
                  && m.terminatedOrder[i] != m.terminatedOrder[j]
                  && m.At(m.terminatedOrder[i]).terminatedAt <= m.At(m.terminatedOrder[j]).terminatedAt)
            && |m.terminatedOrder| <= MAX_TOMBSTONES
  {
    hide After, Body, Tidy, CreatorsCapped;
    AfterFacts(limits, run);
  }

  /** In every reachable state live channels per creator are within the cap, roles are unique and sequence numbers
      belong to participants. */
  lemma ChannelsAreWellFormed(limits: Limits, run: seq<Timed>, id: ChannelId, ip: Ip)
    ensures var m := After(limits, run).m;
            && (limits.maxChannelsPerIp.Some? ==>
                  |set x | x in m.channels && !m.At(x).terminated && m.At(x).creatorIp == Some(ip)| <=
                  limits.maxChannelsPerIp.value)
            && (id in m.channels ==>
                  var c := m.At(id);
                  && c.seqNumbers.Keys <= c.participants.Keys
                  && (forall a, b ::
                        a in c.participants && b in c.participants && c.participants[a] == c.participants[b] ==> a == b)
                  && (c.terminated ==> c.participants == map[] && c.buffer == [] && c.publicKey == None))
  {
    hide After, Tidy, Conserved, Budgets, TombstonesListed;
    AfterFacts(limits, run);
    var m := After(limits, run).m;
    assert CreatedBy(m, ip) == set x | x in m.channels && !m.At(x).terminated && m.At(x).creatorIp == Some(ip);
    assert id in m.channels ==> ChanOk(m.At(id), After(limits, run).clock);
  }

  /** In every reachable state a listener is armed exactly for the sockets with an outstanding write, all of them
      connected; and every socket has at most one seat, where its session says. */
  lemma ListenersMatchReservations(limits: Limits, run: seq<Timed>, s: SocketId)
    ensures var r := After(limits, run);
            && (s in r.listeners <==> s in r.m.deliveries)
            && (s in r.m.deliveries ==> s in r.sockets)
            && (forall id: ChannelId :: SeatedAt(r.m, id, s) ==> s in r.sessions && Home(r.sessions[s]) == Some(id))
  {
    hide After, Body, Lifecycle;
    AfterFacts(limits, run);
  }

  /** An object that has left the map holds no participant and no message, whatever reservation still names it. */
  lemma ForgottenObjectsAreEmpty(limits: Limits, run: seq<Timed>, ref: nat)
    requires ref < |After(limits, run).m.store|
    requires forall id :: id in After(limits, run).m.channels ==> After(limits, run).m.channels[id] != ref
    ensures var c := After(limits, run).m.store[ref]; c.participants == map[] && c.buffer == []
  {
    hide After, Lifecycle, Tidy, Conserved, Budgets;
    AfterFacts(limits, run);
    assert Unnamed(After(limits, run).m, ref);
  }
}
