/**
 What the periodic sweep forgets: exactly the channels past their lifetime, the
 expired head of every buffer, and a prefix of the tombstone FIFO, whatever the
 order in which it visits the channels.
 */
module ManagerCleanup {
  import opened Options
  import opened RelayTypes
  import opened Ledgers
  import opened ManagerSpec
  import opened ManagerSafety
  import opened ManagerOps

  /** The channel has outlived its purpose at `now`. */
  predicate Forgettable(c: Chan, now: nat) {
    if c.terminated then now - c.terminatedAt > TOMBSTONE_TTL_MS
    else |c.participants| == 0 && now - c.lastActivity > CHANNEL_TTL_MS
  }

  /** `d` is `c` after at least one visit of the sweep, or untouched. */
  ghost predicate Swept(c: Chan, d: Chan, visited: bool, now: nat) {
    && d.buffer == (if visited then Pick(c.buffer, OlderThan(now), false) else c.buffer)
    && d == c.(buffer := d.buffer, bufferedBytes := d.bufferedBytes, settled := d.settled)
  }

  ghost predicate SweptAt(m: Manager, after: Manager, ids: seq<ChannelId>, x: ChannelId, now: nat)
    requires m.RefsOk() && after.RefsOk() && x in m.channels
  {
    && (x in after.channels <==> !(x in ids && Forgettable(m.At(x), now)))
    && m.channels[x] < |after.store|
    && Swept(m.At(x), after.store[m.channels[x]], x in ids, now)
  }

  ghost predicate SweptAll(m: Manager, after: Manager, ids: seq<ChannelId>, now: nat)
    requires m.RefsOk() && after.RefsOk()
  {
    && after.terminatedOrder == m.terminatedOrder
    && (forall x :: x in after.channels ==> x in m.channels && after.channels[x] == m.channels[x])
    && (forall x :: x in m.channels ==> SweptAt(m, after, ids, x, now))
  }

  ghost predicate OneNamePerObject(m: Manager) {
    forall a, b :: a in m.channels && b in m.channels && m.channels[a] == m.channels[b] ==> a == b
  }

  /** The channel that is visited loses its expired messages, and its name if it has outlived its purpose. */
  lemma VisitedExact(m: Manager, id: ChannelId, now: nat)
    requires m.RefsOk() && id in m.channels
    ensures var after := SweepOne(m, id, now);
            && |after.store| == |m.store| && m.channels[id] < |m.store|
            && after.channels == (if Forgettable(m.At(id), now) then m.channels - {id} else m.channels)
            && Swept(m.At(id), after.store[m.channels[id]], true, now)
            && (forall i :: 0 <= i < |m.store| && i != m.channels[id] ==> after.store[i] == m.store[i])
            && after.terminatedOrder == m.terminatedOrder
  {
    hide Pick;
  }

  lemma SweepOneAt(m: Manager, id: ChannelId, x: ChannelId, now: nat)
    requires m.RefsOk() && OneNamePerObject(m) && x in m.channels
    ensures SweptAt(m, SweepOne(m, id, now), [id], x, now)
  {
    if x == id {
      VisitedExact(m, id, now);
      assert x in [id];
    } else {
      UnvisitedSwept(m.At(x), now);
      assert x !in [id];
      if id in m.channels {
        VisitedExact(m, id, now);
        assert m.channels[x] != m.channels[id];
      }
    }
    hide Swept, Forgettable, Pick, WithdrawPicked;
  }

  lemma SweepOneExact(m: Manager, id: ChannelId, now: nat)
    requires m.RefsOk() && OneNamePerObject(m)
    ensures SweptAll(m, SweepOne(m, id, now), [id], now)
  {
    hide SweptAt, Forgettable, Swept, OneNamePerObject, WithdrawPicked;
    if id in m.channels {
      VisitedExact(m, id, now);
    }
    forall x | x in m.channels ensures SweptAt(m, SweepOne(m, id, now), [id], x, now) {
      SweepOneAt(m, id, x, now);
    }
  }

  lemma UnvisitedSwept(c: Chan, now: nat)
    ensures Swept(c, c, false, now)
  {
  }

  lemma {:induction false} PickTwice(ms: seq<Message>, sieve: Sieve)
    ensures Pick(Pick(ms, sieve, false), sieve, false) == Pick(ms, sieve, false)
  {
    PickAll(Pick(ms, sieve, false), sieve, false);
  }

  lemma SweptTwice(c: Chan, d: Chan, e: Chan, before: bool, visited: bool, now: nat)
    requires Swept(c, d, before, now) && Swept(d, e, visited, now)
    ensures Swept(c, e, before || visited, now)
    ensures Forgettable(d, now) <==> Forgettable(c, now)
  {
    hide Pick;
    PickTwice(c.buffer, OlderThan(now));
  }

  lemma SweptTwiceAt(m: Manager, mid: Manager, after: Manager, init: seq<ChannelId>, last: ChannelId,
                     x: ChannelId, now: nat)
    requires m.RefsOk() && mid.RefsOk() && after.RefsOk() && x in m.channels
    requires SweptAll(m, mid, init, now) && SweptAll(mid, after, [last], now)
    requires x !in mid.channels ==>
        m.channels[x] < |after.store| && after.store[m.channels[x]] == mid.store[m.channels[x]]
    ensures SweptAt(m, after, init + [last], x, now)
  {
    hide Swept, Forgettable;
    assert SweptAt(m, mid, init, x, now);
    if x in mid.channels {
      assert SweptAt(mid, after, [last], x, now);
      SweptTwice(m.At(x), mid.At(x), after.store[m.channels[x]], x in init, x == last, now);
    }
    assert x in init + [last] <==> x in init || x == last;
  }

  /** An object that no longer has a name is not visited again. */
  lemma SweepOneSparesUnnamed(m: Manager, id: ChannelId, i: nat, now: nat)
    requires m.RefsOk() && i < |m.store| && Unnamed(m, i)
    ensures i < |SweepOne(m, id, now).store| && SweepOne(m, id, now).store[i] == m.store[i]
  {
  }

  lemma {:induction false} SweepEachExact(m: Manager, ids: seq<ChannelId>, now: nat)
    requires m.RefsOk() && OneNamePerObject(m)
    ensures SweptAll(m, SweepEach(m, ids, now), ids, now)
  {
    if ids != [] {
      var init, last := ids[..|ids| - 1], ids[|ids| - 1];
      var mid, after := SweepEach(m, init, now), SweepEach(m, ids, now);
      assert ids == init + [last];
      SweepEachExact(m, init, now);
      SweepOneExact(mid, last, now);
      forall x | x in m.channels ensures SweptAt(m, after, ids, x, now) {
        if x !in mid.channels {
          assert SweptAt(m, mid, init, x, now);
          SweepOneSparesUnnamed(mid, last, m.channels[x], now);
        }
        SweptTwiceAt(m, mid, after, init, last, x, now);
      }
    }
  }

  lemma {:induction false} StillMappedSuffix(ids: seq<ChannelId>, channels: map<ChannelId, nat>, k: nat)
    requires k <= |ids|
    requires forall i :: 0 <= i < |ids| ==> (ids[i] in channels <==> k <= i)
    ensures StillMapped(ids, channels) == ids[k..]
  {
    if ids != [] {
      var init := ids[..|ids| - 1];
      if k < |ids| {
        StillMappedSuffix(init, channels, k);
        assert ids[k..] == init[k..] + [ids[|ids| - 1]];
      } else {
        StillMappedSuffix(init, channels, k - 1);
      }
    }
  }

  /** How many tombstones at the head of the FIFO are past their lifetime. */
  function ExpiredTombstones(m: Manager, order: seq<ChannelId>, now: nat): (k: nat)
    requires m.RefsOk() && forall x :: x in order ==> x in m.channels
    ensures k <= |order|
    ensures forall i :: 0 <= i < k ==> now - m.At(order[i]).terminatedAt > TOMBSTONE_TTL_MS
    ensures k < |order| ==> now - m.At(order[k]).terminatedAt <= TOMBSTONE_TTL_MS
  {
    if order == [] || now - m.At(order[0]).terminatedAt <= TOMBSTONE_TTL_MS then 0
    else 1 + ExpiredTombstones(m, order[1..], now)
  }

  lemma {:induction false} PickMembers(ms: seq<Message>, sieve: Sieve, taken: bool)
    ensures forall msg :: msg in Pick(ms, sieve, taken) <==> msg in ms && sieve.Takes(msg) == taken
  {
    if ms != [] {
      var init, last := ms[..|ms| - 1], ms[|ms| - 1];
      assert ms == init + [last];
      PickMembers(init, sieve, taken);
    }
  }

  /** A full sweep keeps a channel exactly while it is not forgettable, with exactly its unexpired messages. */
  lemma CleanupExact(m: Manager, ids: seq<ChannelId>, now: nat)
    requires m.RefsOk() && Sound(m, now) && forall x :: x in m.channels ==> x in ids
    ensures var after := Cleanup(m, ids, now);
            && (forall x :: x in after.channels <==> x in m.channels && !Forgettable(m.At(x), now))
            && (forall x :: x in after.channels ==>
                  && after.channels[x] == m.channels[x]
                  && after.At(x) == m.At(x).(buffer := after.At(x).buffer, bufferedBytes := after.At(x).bufferedBytes,
                                             settled := after.At(x).settled)
                  && after.At(x).buffer == Pick(m.At(x).buffer, OlderThan(now), false)
                  && forall msg :: msg in after.At(x).buffer <==>
                       msg in m.At(x).buffer && now - msg.timestamp < BUFFER_TTL_MS)
  {
    forall x | x in m.channels {
      PickMembers(m.At(x).buffer, OlderThan(now), false);
    }
    SweepEachExact(m, ids, now);
    var swept := SweepEach(m, ids, now);
    forall x | x in m.channels ensures SweptAt(m, swept, ids, x, now) {}
    hide Sound, SweepEach;
  }

  /** A full sweep removes a prefix of the tombstone FIFO: the tombstones past their lifetime. */
  lemma CleanupForgetsPrefix(m: Manager, ids: seq<ChannelId>, now: nat)
    requires m.RefsOk() && Sound(m, now) && forall x :: x in m.channels ==> x in ids
    ensures forall x :: x in m.terminatedOrder ==> x in m.channels
    ensures Cleanup(m, ids, now).terminatedOrder == m.terminatedOrder[ExpiredTombstones(m, m.terminatedOrder, now)..]
    ensures forall i :: ExpiredTombstones(m, m.terminatedOrder, now) <= i < |m.terminatedOrder| ==>
              now - m.At(m.terminatedOrder[i]).terminatedAt <= TOMBSTONE_TTL_MS
  {
    hide Body, SweepEach;
    var order, swept := m.terminatedOrder, SweepEach(m, ids, now);
    var k := ExpiredTombstones(m, order, now);
    BodyShape(m, now);
    SweepEachExact(m, ids, now);
    forall i | 0 <= i < |order|
      ensures order[i] in swept.channels <==> k <= i
      ensures k <= i ==> now - m.At(order[i]).terminatedAt <= TOMBSTONE_TTL_MS
    {
      assert order[i] in order && SweptAt(m, swept, ids, order[i], now);
      if k < i {
        assert m.At(order[k]).terminatedAt <= m.At(order[i]).terminatedAt;
      }
    }
    StillMappedSuffix(order, swept.channels, k);
  }
}
