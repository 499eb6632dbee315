/**
 What every operation of the channel manager keeps: well-formed channels, byte
 conservation, the three byte budgets, the tombstone FIFO and the per-address
 channel cap. `now` is the latest clock reading.
 */
module ManagerSafety {
  import opened Options
  import opened RelayTypes
  import opened Ledgers
  import opened ManagerSpec
  import opened Conservation

  // ---------- One channel ----------

  ghost predicate RoleUnique(parts: map<SocketId, ClientType>) {
    forall a, b :: a in parts && b in parts && parts[a] == parts[b] ==> a == b
  }

  /** Everything ever accepted is still buffered or was settled, once. */
  ghost predicate Accounted(c: Chan) {
    multiset(c.accepted) == multiset(Plain(c.settled)) + multiset(c.buffer)
  }

  ghost predicate Vacant(c: Chan) {
    c.participants == map[] && c.buffer == []
  }

  ghost predicate ChanOk(c: Chan, now: nat) {
    && RoleUnique(c.participants)
    && c.seqNumbers.Keys <= c.participants.Keys
    && (c.terminated ==> Vacant(c) && c.publicKey == None)
    && c.lastActivity <= now
    && c.terminatedAt <= now
    && (forall msg :: msg in c.buffer ==> msg.timestamp <= c.lastActivity)
    && TimeOrdered(c.buffer)
    && |c.buffer| <= MAX_BUFFERED_MESSAGES
    && Accounted(c)
  }

  ghost predicate Unnamed(m: Manager, i: nat) {
    forall id :: id in m.channels ==> m.channels[id] != i
  }

  ghost predicate Shape(m: Manager, now: nat) {
    && m.RefsOk()
    && (forall a, b :: a in m.channels && b in m.channels && m.channels[a] == m.channels[b] ==> a == b)
    && (forall i :: 0 <= i < |m.store| ==> ChanOk(m.store[i], now))
    && (forall i :: 0 <= i < |m.store| && Unnamed(m, i) ==> Vacant(m.store[i]))
  }

  // ---------- Budgets ----------

  ghost predicate IpWithinBudget(m: Manager, ip: Ip) {
    AtIp(m.ledger.byIp, ip) <= m.limits.perIp
  }

  ghost predicate Budgets(m: Manager) {
    && (forall i :: 0 <= i < |m.store| ==>
          m.store[i].bufferedBytes + m.store[i].inflightBytes <= m.limits.perChannel)
    && (forall ip :: IpWithinBudget(m, ip))
    && m.ledger.buffered + m.ledger.inflight <= m.limits.total
  }

  ghost predicate Body(m: Manager, now: nat) {
    Shape(m, now) && Conserved(m) && Budgets(m)
  }

  // ---------- Tombstones and allocation ----------

  ghost predicate Distinct(ids: seq<ChannelId>) {
    forall i, j :: 0 <= i < j < |ids| ==> ids[i] != ids[j]
  }

  /** The FIFO lists every tombstone once, oldest first; it may also list forgotten ids. */
  ghost predicate TombstonesListed(m: Manager)
    requires m.RefsOk()
  {
    && Distinct(m.terminatedOrder)
    && (forall id :: id in m.terminatedOrder && id in m.channels ==> m.At(id).terminated)
    && (forall id :: id in m.channels && m.At(id).terminated ==> id in m.terminatedOrder)
    && (forall i, j :: 0 <= i < j < |m.terminatedOrder|
          && m.terminatedOrder[i] in m.channels && m.terminatedOrder[j] in m.channels
          ==> m.At(m.terminatedOrder[i]).terminatedAt <= m.At(m.terminatedOrder[j]).terminatedAt)
  }

  ghost predicate AllMapped(m: Manager) {
    forall id :: id in m.terminatedOrder ==> id in m.channels
  }

  ghost predicate CreatorsCapped(m: Manager)
    requires m.RefsOk()
  {
    m.limits.maxChannelsPerIp.Some? ==> forall ip :: |CreatedBy(m, ip)| <= m.limits.maxChannelsPerIp.value
  }

  ghost predicate Lifecycle(m: Manager)
    requires m.RefsOk()
  {
    && TombstonesListed(m)
    && AllMapped(m)
    && |m.terminatedOrder| <= MAX_TOMBSTONES
    && CreatorsCapped(m)
  }

  /** Every reachable state of the manager satisfies this. */
  ghost predicate Sound(m: Manager, now: nat) {
    Body(m, now) && Lifecycle(m)
  }

  lemma SoundLater(m: Manager, now: nat, later: nat)
    requires Sound(m, now) && now <= later
    ensures Sound(m, later)
  {
  }

  lemma {:induction false} EmptySound(limits: Limits, now: nat)
    ensures Sound(EmptyManager(limits), now)
  {
    var m := EmptyManager(limits);
    forall ip ensures IpBalanced(m, ip) && CreatedBy(m, ip) == {} {
      ReservedNowhere(m.deliveries, FromIp(ip));
    }
    ReservedNowhere(m.deliveries, Everything);
  }

  // ---------- Primitive moves keep the body ----------

  /** Changing one object, and reservations only on known objects, keeps the shape. */
  lemma ShapeAfter(m: Manager, after: Manager, ref: nat, now: nat)
    requires Shape(m, now) && ref < |m.store| && |after.store| == |m.store| && after.channels == m.channels
    requires forall i :: 0 <= i < |m.store| && i != ref ==> after.store[i] == m.store[i]
    requires ChanOk(after.store[ref], now) && (Unnamed(m, ref) ==> Vacant(after.store[ref]))
    requires forall s :: s in after.deliveries ==> after.deliveries[s].channel < |after.store|
    ensures Shape(after, now)
  {
    hide ChanOk, Vacant;
    assert forall i :: Unnamed(after, i) <==> Unnamed(m, i);
  }

  /** Charging nobody more keeps the budgets. */
  lemma BudgetsAfter(m: Manager, after: Manager, ref: nat)
    requires Budgets(m) && ref < |m.store| && |after.store| == |m.store| && after.limits == m.limits
    requires forall i :: 0 <= i < |m.store| && i != ref ==> after.store[i] == m.store[i]
    requires after.store[ref].bufferedBytes + after.store[ref].inflightBytes <=
             m.store[ref].bufferedBytes + m.store[ref].inflightBytes
    requires forall ip :: AtIp(after.ledger.byIp, ip) <= AtIp(m.ledger.byIp, ip)
    requires after.ledger.buffered + after.ledger.inflight <= m.ledger.buffered + m.ledger.inflight
    ensures Budgets(after)
  {
    hide AtIp;
    forall ip ensures IpWithinBudget(after, ip) {
      assert IpWithinBudget(m, ip);
    }
  }

  lemma PutKeepsBody(m: Manager, ref: nat, c: Chan, now: nat)
    requires Body(m, now) && ref < |m.store|
    requires c.buffer == m.store[ref].buffer
    requires c.bufferedBytes == m.store[ref].bufferedBytes && c.inflightBytes == m.store[ref].inflightBytes
    requires ChanOk(c, now)
    requires Unnamed(m, ref) ==> Vacant(c)
    ensures Body(m.Put(ref, c), now)
  {
    hide ChanOk, Conserved, Budgets, Vacant;
    PutConserves(m, ref, c);
    ShapeAfter(m, m.Put(ref, c), ref, now);
    BudgetsAfter(m, m.Put(ref, c), ref);
  }

  lemma InflightKeepsChan(c: Chan, bytes: int, now: nat)
    requires ChanOk(c, now)
    ensures ChanOk(c.(inflightBytes := bytes), now)
  {
  }

  lemma ReleaseKeepsBody(m: Manager, s: SocketId, now: nat)
    requires Body(m, now)
    ensures Body(Release(m, s), now)
  {
    hide ChanOk, Conserved, Budgets, AtIp;
    if s in m.deliveries {
      var r, after := m.deliveries[s], Release(m, s);
      ReleaseConserves(m, s);
      assert ChanOk(m.store[r.channel], now);
      InflightKeepsChan(m.store[r.channel], after.store[r.channel].inflightBytes, now);
      assert Vacant(m.store[r.channel]) ==> Vacant(after.store[r.channel]);
      ShapeAfter(m, after, r.channel, now);
      BudgetsAfter(m, after, r.channel);
    }
  }

  lemma WithdrawKeepsChan(c: Chan, keep: seq<Message>, out: seq<Message>, fate: Fate, bytes: int, now: nat)
    requires ChanOk(c, now)
    requires multiset(c.buffer) == multiset(keep) + multiset(out)
    requires TimeOrdered(keep) && |keep| <= |c.buffer|
    ensures ChanOk(c.(buffer := keep, bufferedBytes := bytes, settled := c.settled + Tag(out, fate)), now)
    ensures Vacant(c) ==> keep == []
  {
    PlainTag(c.settled, out, fate);
    forall msg | msg in keep ensures msg in c.buffer {
      assert msg in multiset(c.buffer);
    }
    if c.buffer == [] {
      assert |multiset(keep)| == 0;
    }
  }

  lemma WithdrawKeepsBudgets(m: Manager, ref: nat, keep: seq<Message>, out: seq<Message>, fate: Fate)
    requires Conserved(m) && Budgets(m) && ref < |m.store|
    requires multiset(m.store[ref].buffer) == multiset(keep) + multiset(out)
    ensures Conserved(Withdraw(m, ref, keep, out, fate)) && Budgets(Withdraw(m, ref, keep, out, fate))
  {
    hide Conserved;
    var after := Withdraw(m, ref, keep, out, fate);
    WithdrawConserves(m, ref, keep, out, fate);
    forall ip ensures IpWithinBudget(after, ip) {
      assert IpWithinBudget(m, ip);
    }
  }

  lemma WithdrawKeepsBody(m: Manager, ref: nat, keep: seq<Message>, out: seq<Message>, fate: Fate, now: nat)
    requires Body(m, now) && ref < |m.store|
    requires multiset(m.store[ref].buffer) == multiset(keep) + multiset(out)
    requires TimeOrdered(keep) && |keep| <= |m.store[ref].buffer|
    ensures Body(Withdraw(m, ref, keep, out, fate), now)
  {
    hide Conserved, Budgets, ChanOk;
    var c, after := m.store[ref], Withdraw(m, ref, keep, out, fate);
    WithdrawKeepsBudgets(m, ref, keep, out, fate);
    WithdrawKeepsChan(c, keep, out, fate, after.store[ref].bufferedBytes, now);
    assert forall i :: Unnamed(after, i) ==> Unnamed(m, i);
  }

  lemma WithdrawPickedKeepsBody(m: Manager, ref: nat, sieve: Sieve, fate: Fate, now: nat)
    requires Body(m, now) && ref < |m.store|
    ensures Body(WithdrawPicked(m, ref, sieve, fate), now)
  {
    var buffer := m.store[ref].buffer;
    assert ChanOk(m.store[ref], now);
    PickPartitions(buffer, sieve);
    PickTimeOrdered(buffer, sieve, false);
    WithdrawKeepsBody(m, ref, Pick(buffer, sieve, false), Pick(buffer, sieve, true), fate, now);
  }

  lemma WithdrawAtKeepsBody(m: Manager, ref: nat, i: nat, fate: Fate, now: nat)
    requires Body(m, now) && ref < |m.store| && i < |m.store[ref].buffer|
    ensures Body(WithdrawAt(m, ref, i, fate), now)
  {
    var buffer := m.store[ref].buffer;
    assert ChanOk(m.store[ref], now);
    WithoutSplits(buffer, i);
    assert TimeOrdered(Without(buffer, i));
    WithdrawKeepsBody(m, ref, Without(buffer, i), [buffer[i]], fate, now);
  }

  lemma InflightKeepsVacant(c: Chan, bytes: int)
    requires Vacant(c)
    ensures Vacant(c.(inflightBytes := bytes))
  {
  }

  lemma ReserveKeepsBudgets(m: Manager, s: SocketId, r: Reservation<nat>)
    requires Budgets(m) && r.channel < |m.store| && Fits(m, r.channel, r.size, r.sourceIp)
    ensures Budgets(Reserve(m, s, r))
  {
    var after := Reserve(m, s, r);
    forall ip ensures IpWithinBudget(after, ip) {
      assert IpWithinBudget(m, ip);
    }
  }

  lemma ReserveKeepsBody(m: Manager, s: SocketId, r: Reservation<nat>, now: nat)
    requires Body(m, now) && r.channel < |m.store| && s !in m.deliveries
    requires Fits(m, r.channel, r.size, r.sourceIp)
    ensures Body(Reserve(m, s, r), now)
  {
    hide ChanOk, Conserved, Vacant;
    var after := Reserve(m, s, r);
    ReserveConserves(m, s, r);
    ReserveKeepsBudgets(m, s, r);
    assert ChanOk(m.store[r.channel], now);
    InflightKeepsChan(m.store[r.channel], after.store[r.channel].inflightBytes, now);
    if Unnamed(m, r.channel) {
      InflightKeepsVacant(m.store[r.channel], after.store[r.channel].inflightBytes);
    }
    hide Budgets;
    ShapeAfter(m, after, r.channel, now);
  }

  lemma AppendKeepsChan(c: Chan, msg: Message, bytes: int, now: nat)
    requires ChanOk(c, now) && !c.terminated
    requires |c.buffer| < MAX_BUFFERED_MESSAGES && msg.timestamp == c.lastActivity
    ensures ChanOk(c.(buffer := c.buffer + [msg], bufferedBytes := bytes, accepted := c.accepted + [msg]), now)
  {
  }

  lemma AppendKeepsBudgets(m: Manager, ref: nat, msg: Message)
    requires Budgets(m) && ref < |m.store| && Fits(m, ref, msg.size, msg.sourceIp)
    ensures Budgets(Append(m, ref, msg))
  {
    var after := Append(m, ref, msg);
    forall ip ensures IpWithinBudget(after, ip) {
      assert IpWithinBudget(m, ip);
    }
  }

  lemma AppendKeepsBody(m: Manager, ref: nat, msg: Message, now: nat)
    requires Body(m, now) && ref < |m.store| && !Unnamed(m, ref) && !m.store[ref].terminated
    requires |m.store[ref].buffer| < MAX_BUFFERED_MESSAGES
    requires msg.timestamp == m.store[ref].lastActivity
    requires Fits(m, ref, msg.size, msg.sourceIp)
    ensures Body(Append(m, ref, msg), now)
  {
    hide ChanOk, Conserved, Vacant;
    var after := Append(m, ref, msg);
    AppendConserves(m, ref, msg);
    AppendKeepsBudgets(m, ref, msg);
    assert ChanOk(m.store[ref], now);
    AppendKeepsChan(m.store[ref], msg, after.store[ref].bufferedBytes, now);
    hide Budgets;
    ShapeAfter(m, after, ref, now);
  }

  // ---------- Moves that leave lifecycles alone ----------

  /** No channel is created, forgotten or terminated. */
  ghost predicate Quiet(m: Manager, after: Manager) {
    && after.limits == m.limits
    && after.channels == m.channels
    && after.terminatedOrder == m.terminatedOrder
    && |after.store| == |m.store|
    && (forall i :: 0 <= i < |m.store| ==>
          && after.store[i].terminated == m.store[i].terminated
          && after.store[i].terminatedAt == m.store[i].terminatedAt
          && after.store[i].creatorIp == m.store[i].creatorIp)
  }

  lemma QuietKeepsLifecycle(m: Manager, after: Manager)
    requires m.RefsOk() && after.RefsOk() && Lifecycle(m) && Quiet(m, after)
    ensures Lifecycle(after)
  {
    forall ip ensures CreatedBy(after, ip) == CreatedBy(m, ip) {}
  }
}
