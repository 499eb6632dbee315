/**
 What join, leave and close leave behind: who sits in the channel, how long it
 will be kept, and that a close is final.
 */
module ManagerOutcomes {
  import opened Options
  import opened RelayTypes
  import opened Ledgers
  import opened ManagerSpec
  import opened ManagerSafety
  import opened ManagerOps
  import opened ManagerEffects
  import opened ManagerAnswers
  import opened ManagerCleanup

  // ---------- join ----------

  /** `d` is `c` with the socket seated in the role at `now`; a new key is bound only where none was. */
  ghost predicate SeatsIn(c: Chan, d: Chan, s: SocketId, role: ClientType, now: nat) {
    && (forall o :: o in d.participants <==> o == s || (o in c.participants && c.participants[o] != role))
    && d.participants[s] == role
    && (forall o :: o in d.participants && o != s ==> d.participants[o] == c.participants[o])
    && (forall o :: o in d.participants && o in c.seqNumbers ==>
          o in d.seqNumbers && d.seqNumbers[o] == c.seqNumbers[o])
    && d.seqNumbers.Keys <= c.seqNumbers.Keys
    && d.lastActivity == now && d.creatorIp == c.creatorIp && d.terminated == c.terminated
  }

  lemma AdmitSeats(m: Manager, ref: nat, s: SocketId, role: ClientType, key: Option<Key>, now: nat)
    requires ref < |m.store| && Uncontested(m.store[ref].participants, s, role)
    ensures var (after, result) := AdmitUnlessFull(m, ref, s, role, key, now);
            result.Joined? ==> ref < |after.store| && SeatsIn(m.store[ref], after.store[ref], s, role, now)
  {
    hide Pick;
  }

  lemma RivalGone(m: Manager, ref: nat, o: SocketId)
    requires m.RefsOk() && ref < |m.store|
    ensures var c, freed := m.store[ref], Release(RemoveParticipant(m, ref, o), o);
            && ref < |freed.store|
            && var d := freed.store[ref];
               && d.participants == c.participants - {o} && d.seqNumbers == c.seqNumbers - {o}
               && d.creatorIp == c.creatorIp && d.terminated == c.terminated
  {
  }

  lemma JoinExistingSeats(m: Manager, ref: nat, s: SocketId, role: ClientType, key: Option<Key>,
                          active: set<SocketId>, now: nat)
    requires m.RefsOk() && ref < |m.store| && RoleUnique(m.store[ref].participants)
    ensures var (after, result) := JoinExisting(m, ref, s, role, key, active, now);
            result.Joined? ==> ref < |after.store| && SeatsIn(m.store[ref], after.store[ref], s, role, now)
  {
    hide AdmitUnlessFull, SeatsIn, Release, Uncontested, RoleUnique;
    var parts := m.store[ref].participants;
    UncontestedUnless(parts, s, role);
    var rival := Rival(parts, s, role);
    if s in parts && parts[s] != role {
    } else if rival.Some? {
      var o := rival.value;
      var freed := Release(RemoveParticipant(m, ref, o), o);
      RivalGone(m, ref, o);
      ReplaceRivalFacts(m, ref, o, s, role);
      AdmitSeats(freed, ref, s, role, key, now);
      var (after, result) := AdmitUnlessFull(freed, ref, s, role, key, now);
      if result.Joined? {
        SeatsInPlaceOf(m.store[ref], freed.store[ref], after.store[ref], o, s, role, now);
      }
    } else {
      AdmitSeats(m, ref, s, role, key, now);
    }
  }

  lemma SeatsInPlaceOf(c: Chan, freed: Chan, d: Chan, o: SocketId, s: SocketId, role: ClientType, now: nat)
    requires RoleUnique(c.participants) && o in c.participants && c.participants[o] == role && o != s
    requires freed.participants == c.participants - {o} && freed.seqNumbers == c.seqNumbers - {o}
    requires freed.creatorIp == c.creatorIp && freed.terminated == c.terminated
    requires SeatsIn(freed, d, s, role, now)
    ensures SeatsIn(c, d, s, role, now)
  {
  }

  /** A join that succeeds seats the socket in place of whoever held the role, and renews the channel's lease; a new
      channel is charged to the address it was created from. */
  lemma JoinSeats(m: Manager, id: ChannelId, s: SocketId, role: ClientType, offer: KeyOffer,
                  creatorIp: Option<Ip>, active: set<SocketId>, now: nat)
    requires m.RefsOk() && Shape(m, now)
    requires var r := Join(m, id, s, role, offer, creatorIp, active, now).1; r.Joined? && !r.terminated
    ensures var (after, result) := Join(m, id, s, role, offer, creatorIp, active, now);
            && id in after.channels
            && (id in m.channels ==>
                  after.channels[id] == m.channels[id] && SeatsIn(m.At(id), after.At(id), s, role, now))
            && (id !in m.channels ==>
                  && after.At(id).participants == map[s := role] && after.At(id).creatorIp == creatorIp
                  && after.At(id).lastActivity == now && !after.At(id).terminated)
  {
    hide JoinExisting, SeatsIn, Shape, ChanOk, RoleUnique;
    var key := CanonicalKey(role, offer);
    ShapeOfNamed(m, id, now);
    if id in m.channels {
      JoinExistingSeats(m, m.channels[id], s, role, key, active, now);
      JoinExistingEffect(m, m.channels[id], s, role, key, active, now);
    } else {
      var grown := Allocate(m, id, creatorIp, now);
      JoinExistingSeats(grown, |m.store|, s, role, key, active, now);
      JoinExistingEffect(grown, |m.store|, s, role, key, active, now);
      SeatsInFresh(creatorIp, Join(m, id, s, role, offer, creatorIp, active, now).0.store[|m.store|], s, role, now);
    }
  }

  lemma SeatsInFresh(creatorIp: Option<Ip>, d: Chan, s: SocketId, role: ClientType, now: nat)
    requires SeatsIn(FreshChan(creatorIp, now), d, s, role, now)
    ensures d.participants == map[s := role] && d.creatorIp == creatorIp && d.lastActivity == now && !d.terminated
  {
  }

  // ---------- leave ----------

  /** A channel whose last participant has left is kept, with its unexpired messages, for exactly the channel lifetime
      from then on, whenever the sweep comes next. */
  lemma DesertedChannelLives(m: Manager, s: SocketId, id: ChannelId, left: nat, ids: seq<ChannelId>, now: nat)
    requires m.RefsOk() && Sound(m, left) && SeatedAt(m, id, s) && m.At(id).participants.Keys == {s}
    requires left <= now && forall x :: x in m.channels ==> x in ids
    ensures var after := Cleanup(Leave(m, s, id, left).0, ids, now);
            && (id in after.channels <==> now - left <= CHANNEL_TTL_MS)
            && (id in after.channels ==> after.At(id).buffer == Pick(m.At(id).buffer, OlderThan(now), false))
  {
    hide Sound, Leave, Cleanup;
    LeaveAnswers(m, s, id, left);
    LeaveKeepsSound(m, s, id, left);
    var parted := Leave(m, s, id, left).0;
    SoundLater(parted, left, now);
    CleanupExact(parted, ids, now);
    SeatedIsLive(m, id, s, left);
    assert parted.At(id).participants == map[];
  }

  lemma SeatedIsLive(m: Manager, id: ChannelId, s: SocketId, now: nat)
    requires m.RefsOk() && Sound(m, now) && SeatedAt(m, id, s)
    ensures m.Live(id)
  {
    assert ChanOk(m.At(id), now);
  }

  // ---------- close ----------

  /** The channel is a tombstone made at `now`: nobody in it, nothing waiting, no key, the newest of its kind. */
  ghost predicate BuriedAt(m: Manager, id: ChannelId, now: nat)
    requires m.RefsOk()
  {
    && m.terminatedOrder != [] && m.terminatedOrder[|m.terminatedOrder| - 1] == id
    && id in m.channels
    && var c := m.At(id);
       && c.terminated && c.terminatedAt == now
       && c.participants == map[] && c.buffer == [] && c.publicKey == None
  }

  lemma TerminateBuries(m: Manager, id: ChannelId, now: nat)
    requires m.RefsOk() && id in m.channels
    ensures var t := Terminate(m, m.channels[id], now);
            && t.RefsOk() && t.channels == m.channels && |t.store| == |m.store|
            && t.terminatedOrder == m.terminatedOrder
            && BuriedAt(t.(terminatedOrder := t.terminatedOrder + [id]), id, now)
            && (forall i :: 0 <= i < |m.store| && i != m.channels[id] ==> t.store[i] == m.store[i])
  {
    hide ReleaseEach, ClampEach;
  }

  /** Eviction only forgets listed tombstones from the front. */
  lemma {:induction false} EvictForgets(m: Manager, id: ChannelId, now: nat)
    requires m.RefsOk() && Distinct(m.terminatedOrder) && BuriedAt(m, id, now)
    ensures BuriedAt(EvictTombstones(m), id, now)
    ensures EvictTombstones(m).store == m.store
    ensures forall x :: EvictTombstones(m).Live(x) <==> m.Live(x)
    ensures forall x :: x in EvictTombstones(m).channels ==> x in m.channels && EvictTombstones(m).At(x) == m.At(x)
    decreases |m.terminatedOrder|
  {
    if |m.terminatedOrder| > MAX_TOMBSTONES {
      var oldest := m.terminatedOrder[0];
      var popped := m.(terminatedOrder := m.terminatedOrder[1..]);
      EvictForgets(if oldest in m.channels && m.At(oldest).terminated then Unmap(popped, oldest) else popped, id, now);
    }
  }

  lemma ListedOnce(m: Manager, id: ChannelId, now: nat)
    requires m.RefsOk() && Sound(m, now) && m.Live(id)
    ensures Distinct(m.terminatedOrder + [id])
  {
    assert id !in m.terminatedOrder;
  }

  /** Closing a live channel buries it and ends no other; closing anything else changes nothing. */
  lemma CloseBuries(m: Manager, id: ChannelId, now: nat)
    requires m.RefsOk() && Sound(m, now)
    ensures var (after, closed) := Close(m, id, now);
            && (closed <==> m.Live(id))
            && (!closed ==> after == m)
            && (closed ==> BuriedAt(after, id, now) && forall x :: x != id ==> (after.Live(x) <==> m.Live(x)))
  {
    hide Terminate, EvictTombstones, BuriedAt, Body, CreatorsCapped;
    if m.Live(id) {
      TerminateBuries(m, id, now);
      var t := Terminate(m, m.channels[id], now);
      var listed := t.(terminatedOrder := t.terminatedOrder + [id]);
      ListedOnce(m, id, now);
      EvictForgets(listed, id, now);
      OthersStayLive(m, t, id, now);
    }
  }

  lemma OthersStayLive(m: Manager, t: Manager, id: ChannelId, now: nat)
    requires m.RefsOk() && t.RefsOk() && Body(m, now) && id in m.channels
    requires t.channels == m.channels && |t.store| == |m.store|
    requires forall i :: 0 <= i < |m.store| && i != m.channels[id] ==> t.store[i] == m.store[i]
    ensures forall x :: x != id ==> (t.Live(x) <==> m.Live(x))
  {
  }
}
