/** Each operation of the channel manager keeps `Sound`, whatever its arguments. */
module ManagerOps {
  import opened Options
  import opened RelayTypes
  import opened Ledgers
  import opened ManagerSpec
  import opened Conservation
  import opened ManagerSafety

  lemma BodyFacts(m: Manager, ref: nat, now: nat)
    requires Body(m, now) && ref < |m.store|
    ensures m.RefsOk() && ChanOk(m.store[ref], now) && RoleUnique(m.store[ref].participants)
  {
  }

  // ---------- join ----------

  ghost predicate Uncontested(parts: map<SocketId, ClientType>, s: SocketId, role: ClientType) {
    && (s in parts ==> parts[s] == role)
    && (forall o :: o in parts && o != s ==> parts[o] != role)
  }

  ghost predicate Open(m: Manager, ref: nat) {
    ref < |m.store| && !Unnamed(m, ref) && !m.store[ref].terminated
  }

  lemma SeatKeepsChan(c: Chan, s: SocketId, role: ClientType, key: Option<Key>, now: nat)
    requires ChanOk(c, now) && !c.terminated && Uncontested(c.participants, s, role)
    ensures ChanOk(c.(publicKey := key, participants := c.participants[s := role], lastActivity := now), now)
  {
  }

  lemma AdmitKeeps(m: Manager, ref: nat, s: SocketId, role: ClientType, key: Option<Key>, now: nat)
    requires Body(m, now) && Open(m, ref)
    requires Uncontested(m.store[ref].participants, s, role)
    ensures Body(Admit(m, ref, s, role, key, now).0, now)
  {
    var c := m.store[ref];
    var seated := c.(
      publicKey := if c.publicKey.None? then key else c.publicKey,
      participants := c.participants[s := role],
      lastActivity := now);
    SeatKeepsChan(c, s, role, seated.publicKey, now);
    PutKeepsBody(m, ref, seated, now);
    WithdrawPickedKeepsBody(m.Put(ref, seated), ref, ForRole(role), Returned, now);
  }

  lemma RemoveKeepsBody(m: Manager, ref: nat, s: SocketId, now: nat)
    requires Body(m, now) && ref < |m.store|
    ensures Body(RemoveParticipant(m, ref, s), now)
  {
    assert ChanOk(m.store[ref], now);
    PutKeepsBody(m, ref, RemoveParticipant(m, ref, s).store[ref], now);
  }

  /** A channel in which at most one role is taken has room. */
  lemma RoomForAnother(parts: map<SocketId, ClientType>, s: SocketId, role: ClientType)
    requires RoleUnique(parts) && Uncontested(parts, s, role) && s !in parts
    ensures |parts| <= 1
  {
    if parts != map[] {
      var o :| o in parts;
      assert parts.Keys == {o};
      assert |parts| == |parts.Keys|;
    }
  }

  /** Once no rival is left the channel cannot be full. */
  lemma AdmitUnlessFullKeeps(m: Manager, ref: nat, s: SocketId, role: ClientType, key: Option<Key>, now: nat)
    requires Body(m, now) && Open(m, ref)
    requires Uncontested(m.store[ref].participants, s, role)
    ensures Body(AdmitUnlessFull(m, ref, s, role, key, now).0, now)
    ensures AdmitUnlessFull(m, ref, s, role, key, now).1 != Refused(ChannelFull)
  {
    AdmitKeeps(m, ref, s, role, key, now);
    BodyFacts(m, ref, now);
    hide Body, Admit;
    if s !in m.store[ref].participants {
      RoomForAnother(m.store[ref].participants, s, role);
    }
    if AdmitUnlessFull(m, ref, s, role, key, now).1.Joined? {
      assert AdmitUnlessFull(m, ref, s, role, key, now) == Admit(m, ref, s, role, key, now);
    }
  }

  lemma ReplaceRivalShape(m: Manager, ref: nat, o: SocketId)
    requires m.RefsOk() && Open(m, ref)
    ensures var freed := Release(RemoveParticipant(m, ref, o), o);
            Open(freed, ref) && freed.store[ref].participants == m.store[ref].participants - {o}
  {
    var freed := Release(RemoveParticipant(m, ref, o), o);
    assert freed.channels == m.channels;
  }

  lemma ReplaceRivalKeeps(m: Manager, ref: nat, o: SocketId, now: nat)
    requires m.RefsOk() && Body(m, now) && Open(m, ref)
    ensures Body(Release(RemoveParticipant(m, ref, o), o), now)
  {
    hide Body;
    RemoveKeepsBody(m, ref, o, now);
    ReleaseKeepsBody(RemoveParticipant(m, ref, o), o, now);
  }

  lemma JoinExistingKeeps(m: Manager, ref: nat, s: SocketId, role: ClientType, key: Option<Key>,
                          active: set<SocketId>, now: nat)
    requires m.RefsOk() && Body(m, now) && Open(m, ref)
    ensures Body(JoinExisting(m, ref, s, role, key, active, now).0, now)
    ensures JoinExisting(m, ref, s, role, key, active, now).1 != Refused(ChannelFull)
  {
    hide Body, AdmitUnlessFull, ChanOk;
    BodyFacts(m, ref, now);
    var parts := m.store[ref].participants;
    if s in parts && parts[s] != role {
    } else if Rival(parts, s, role).Some? {
      var o := Rival(parts, s, role).value;
      ReplaceRivalKeeps(m, ref, o, now);
      ReplaceRivalShape(m, ref, o);
      AdmitUnlessFullKeeps(Release(RemoveParticipant(m, ref, o), o), ref, s, role, key, now);
    } else {
      AdmitUnlessFullKeeps(m, ref, s, role, key, now);
    }
  }

  lemma AdmitUnlessFullQuiet(m: Manager, ref: nat, s: SocketId, role: ClientType, key: Option<Key>, now: nat)
    requires ref < |m.store|
    ensures Quiet(m, AdmitUnlessFull(m, ref, s, role, key, now).0)
  {
    hide Pick, Payloads, Others, ClampEach, ReleaseEach, Tag;
  }

  lemma QuietTransitive(a: Manager, b: Manager, c: Manager)
    requires Quiet(a, b) && Quiet(b, c)
    ensures Quiet(a, c)
  {
  }

  lemma RemoveKeepsRefs(m: Manager, ref: nat, o: SocketId)
    requires m.RefsOk() && ref < |m.store|
    ensures RemoveParticipant(m, ref, o).RefsOk()
    ensures ref < |Release(RemoveParticipant(m, ref, o), o).store|
  {
  }

  lemma ReplaceRivalQuiet(m: Manager, ref: nat, o: SocketId)
    requires m.RefsOk() && ref < |m.store|
    ensures Quiet(m, Release(RemoveParticipant(m, ref, o), o))
  {
  }

  lemma JoinExistingQuiet(m: Manager, ref: nat, s: SocketId, role: ClientType, key: Option<Key>,
                          active: set<SocketId>, now: nat)
    requires m.RefsOk() && ref < |m.store|
    ensures Quiet(m, JoinExisting(m, ref, s, role, key, active, now).0)
  {
    hide Quiet, AdmitUnlessFull, Release, RemoveParticipant;
    QuietSelf(m);
    AdmitUnlessFullQuiet(m, ref, s, role, key, now);
    if Rival(m.store[ref].participants, s, role).Some? {
      var o := Rival(m.store[ref].participants, s, role).value;
      ReplaceRivalQuiet(m, ref, o);
      RemoveKeepsRefs(m, ref, o);
      var freed := Release(RemoveParticipant(m, ref, o), o);
      AdmitUnlessFullQuiet(freed, ref, s, role, key, now);
      QuietTransitive(m, freed, AdmitUnlessFull(freed, ref, s, role, key, now).0);
    }
  }

  lemma QuietSelf(m: Manager)
    ensures Quiet(m, m)
  {
  }

  lemma AllocateKeepsBody(m: Manager, id: ChannelId, creatorIp: Option<Ip>, now: nat)
    requires Body(m, now) && id !in m.channels
    ensures Body(Allocate(m, id, creatorIp, now), now)
    ensures Open(Allocate(m, id, creatorIp, now), |m.store|)
  {
    var after := Allocate(m, id, creatorIp, now);
    AllocateConserves(m, id, creatorIp, now);
    AllocateKeepsBudgets(m, id, creatorIp, now);
    assert after.channels[id] == |m.store|;
    FreshChanOk(creatorIp, now);
    hide Conserved, Budgets, Vacant, ChanOk;
    forall i | 0 <= i < |m.store| && Unnamed(after, i) ensures Unnamed(m, i) {
      assert forall x :: x in m.channels ==> x in after.channels && after.channels[x] == m.channels[x];
    }
  }

  lemma FreshChanOk(creatorIp: Option<Ip>, now: nat)
    ensures ChanOk(FreshChan(creatorIp, now), now)
  {
  }

  lemma AllocateKeepsBudgets(m: Manager, id: ChannelId, creatorIp: Option<Ip>, now: nat)
    requires Budgets(m)
    ensures Budgets(Allocate(m, id, creatorIp, now))
  {
    var after := Allocate(m, id, creatorIp, now);
    forall ip ensures IpWithinBudget(after, ip) {
      assert IpWithinBudget(m, ip);
    }
  }

  lemma AllocateKeepsTombstones(m: Manager, id: ChannelId, creatorIp: Option<Ip>, now: nat)
    requires m.RefsOk() && TombstonesListed(m) && AllMapped(m) && id !in m.channels
    ensures var after := Allocate(m, id, creatorIp, now);
            after.RefsOk() && TombstonesListed(after) && AllMapped(after)
  {
    var after := Allocate(m, id, creatorIp, now);
    assert forall x :: x in m.terminatedOrder ==> x in m.channels;
    forall x ensures x in after.channels <==> x == id || x in m.channels {}
    forall x | x in m.channels ensures after.At(x) == m.At(x) {}
  }

  lemma AllocateKeepsCap(m: Manager, id: ChannelId, creatorIp: Option<Ip>, now: nat)
    requires m.RefsOk() && CreatorsCapped(m) && id !in m.channels && !AtChannelCap(m, creatorIp)
    ensures var after := Allocate(m, id, creatorIp, now); after.RefsOk() && CreatorsCapped(after)
  {
    var after := Allocate(m, id, creatorIp, now);
    forall ip: Ip ensures |CreatedBy(after, ip)| <= |CreatedBy(m, ip)| + if creatorIp == Some(ip) then 1 else 0 {
      AllocateAddsCreator(m, id, creatorIp, now, ip);
    }
    hide CreatedBy;
  }

  lemma AllocateAddsCreator(m: Manager, id: ChannelId, creatorIp: Option<Ip>, now: nat, ip: Ip)
    requires m.RefsOk() && id !in m.channels
    ensures var after := Allocate(m, id, creatorIp, now);
            after.RefsOk() && CreatedBy(after, ip) == CreatedBy(m, ip) + if creatorIp == Some(ip) then {id} else {}
  {
    var after := Allocate(m, id, creatorIp, now);
    forall x | x in m.channels ensures x in after.channels && after.At(x) == m.At(x) {}
  }

  /** A join keeps every invariant and never meets a full channel. */
  lemma JoinKeepsSound(m: Manager, id: ChannelId, s: SocketId, role: ClientType, offer: KeyOffer,
                       creatorIp: Option<Ip>, active: set<SocketId>, now: nat)
    requires Sound(m, now)
    ensures var (after, result) := Join(m, id, s, role, offer, creatorIp, active, now);
            Sound(after, now) && result != Refused(ChannelFull)
  {
    var key := CanonicalKey(role, offer);
    if role.Dapp? && offer.Malformed? {
    } else if id in m.channels {
      if !m.At(id).terminated {
        assert !Unnamed(m, m.channels[id]);
        JoinExistingKeeps(m, m.channels[id], s, role, key, active, now);
        JoinExistingQuiet(m, m.channels[id], s, role, key, active, now);
        QuietKeepsLifecycle(m, Join(m, id, s, role, offer, creatorIp, active, now).0);
      }
    } else if !AtChannelCap(m, creatorIp) {
      var grown := Allocate(m, id, creatorIp, now);
      AllocateKeepsBody(m, id, creatorIp, now);
      AllocateKeepsTombstones(m, id, creatorIp, now);
      AllocateKeepsCap(m, id, creatorIp, now);
      JoinExistingKeeps(grown, |m.store|, s, role, key, active, now);
      JoinExistingQuiet(grown, |m.store|, s, role, key, active, now);
      QuietKeepsLifecycle(grown, Join(m, id, s, role, offer, creatorIp, active, now).0);
    }
  }

  /** No failed join allocates a channel. */
  lemma RefusedJoinAllocatesNothing(m: Manager, id: ChannelId, s: SocketId, role: ClientType, offer: KeyOffer,
                                    creatorIp: Option<Ip>, active: set<SocketId>, now: nat)
    requires m.RefsOk()
    requires Join(m, id, s, role, offer, creatorIp, active, now).1.Refused?
    ensures Join(m, id, s, role, offer, creatorIp, active, now).0.channels == m.channels
    ensures |Join(m, id, s, role, offer, creatorIp, active, now).0.store| == |m.store|
  {
    var key := CanonicalKey(role, offer);
    if id in m.channels {
      JoinExistingQuiet(m, m.channels[id], s, role, key, active, now);
    } else if !AtChannelCap(m, creatorIp) {
      var grown := Allocate(m, id, creatorIp, now);
      assert grown.store[|m.store|].participants == map[];
      assert JoinExisting(grown, |m.store|, s, role, key, active, now).1.Joined?;
    }
  }

  // ---------- leave and close ----------

  lemma LeaveKeepsBody(m: Manager, ref: nat, s: SocketId, now: nat)
    requires Body(m, now) && ref < |m.store| && !Unnamed(m, ref)
    ensures var left := RemoveParticipant(m, ref, s);
            Body(left.Put(ref, left.store[ref].(lastActivity := now)), now)
  {
    var left := RemoveParticipant(m, ref, s);
    RemoveKeepsBody(m, ref, s, now);
    assert ChanOk(left.store[ref], now);
    assert left.channels == m.channels;
    PutKeepsBody(left, ref, left.store[ref].(lastActivity := now), now);
  }

  lemma LeaveQuiet(m: Manager, s: SocketId, id: ChannelId, now: nat)
    requires m.RefsOk()
    ensures Quiet(m, Leave(m, s, id, now).0)
  {
  }

  lemma LeaveKeepsSound(m: Manager, s: SocketId, id: ChannelId, now: nat)
    requires Sound(m, now)
    ensures Sound(Leave(m, s, id, now).0, now)
  {
    if id in m.channels && s in m.At(id).participants {
      var ref := m.channels[id];
      LeaveKeepsBody(m, ref, s, now);
      LeaveQuiet(m, s, id, now);
      hide Body, Lifecycle, Quiet;
      QuietKeepsLifecycle(m, Leave(m, s, id, now).0);
    }
  }

  /** Forgetting an empty channel loses no participant, no message and no byte. */
  lemma UnmapKeeps(m: Manager, id: ChannelId, now: nat)
    requires Body(m, now) && CreatorsCapped(m)
    requires id in m.channels && Vacant(m.At(id))
    ensures Body(Unmap(m, id), now) && CreatorsCapped(Unmap(m, id))
  {
    var after := Unmap(m, id);
    forall i | 0 <= i < |after.store| && Unnamed(after, i) ensures Vacant(after.store[i]) {
      if i != m.channels[id] {
        assert forall x :: x in m.channels && x != id ==> x in after.channels && after.channels[x] == m.channels[x];
        assert Unnamed(m, i);
      }
    }
    forall ip ensures IpWithinBudget(after, ip) && IpBalanced(after, ip) {
      assert IpWithinBudget(m, ip) && IpBalanced(m, ip);
    }
    forall ip ensures |CreatedBy(after, ip)| <= |CreatedBy(m, ip)| {
      SubsetIsSmaller(CreatedBy(after, ip), CreatedBy(m, ip));
    }
  }

  lemma {:induction false} SubsetIsSmaller(a: set<ChannelId>, b: set<ChannelId>)
    requires a <= b
    ensures |a| <= |b|
  {
    assert b == a + (b - a);
  }

  lemma OrderKeepsBody(m: Manager, order: seq<ChannelId>, now: nat)
    requires Body(m, now)
    ensures Body(m.(terminatedOrder := order), now)
  {
    var after := m.(terminatedOrder := order);
    assert forall i :: Unnamed(after, i) ==> Unnamed(m, i);
    forall ip ensures IpWithinBudget(after, ip) && IpBalanced(after, ip) {
      assert IpWithinBudget(m, ip) && IpBalanced(m, ip);
    }
  }

  function PopOldest(m: Manager): Manager
    requires m.terminatedOrder != []
  {
    Unmap(m.(terminatedOrder := m.terminatedOrder[1..]), m.terminatedOrder[0])
  }

  lemma PopOldestListed(m: Manager)
    requires m.RefsOk() && TombstonesListed(m) && AllMapped(m) && m.terminatedOrder != []
    ensures PopOldest(m).RefsOk() && TombstonesListed(PopOldest(m)) && AllMapped(PopOldest(m))
  {
    var next := PopOldest(m);
    var order := m.terminatedOrder;
    assert forall i :: 0 <= i < |next.terminatedOrder| ==> next.terminatedOrder[i] == order[i + 1];
    assert forall x :: x in next.terminatedOrder ==> x in order && x != order[0];
    forall x | x in order && x != order[0] ensures x in next.terminatedOrder {
      var i :| 0 <= i < |order| && order[i] == x;
      assert next.terminatedOrder[i - 1] == x;
    }
  }

  lemma PopOldestKeeps(m: Manager, now: nat)
    requires Body(m, now) && TombstonesListed(m) && AllMapped(m) && CreatorsCapped(m) && m.terminatedOrder != []
    ensures Body(PopOldest(m), now) && CreatorsCapped(PopOldest(m))
  {
    var oldest := m.terminatedOrder[0];
    assert oldest in m.terminatedOrder;
    var popped := m.(terminatedOrder := m.terminatedOrder[1..]);
    OrderKeepsBody(m, m.terminatedOrder[1..], now);
    assert ChanOk(m.At(oldest), now);
    forall ip ensures CreatedBy(popped, ip) == CreatedBy(m, ip) {}
    UnmapKeeps(popped, oldest, now);
  }

  /** Eviction restores the cap by forgetting the oldest tombstones, and nothing else. */
  lemma {:induction false} EvictKeeps(m: Manager, now: nat)
    requires Body(m, now) && TombstonesListed(m) && AllMapped(m) && CreatorsCapped(m)
    requires |m.terminatedOrder| <= MAX_TOMBSTONES + 1
    ensures Sound(EvictTombstones(m), now)
    ensures EvictTombstones(m) == if |m.terminatedOrder| <= MAX_TOMBSTONES then m else PopOldest(m)
  {
    if |m.terminatedOrder| > MAX_TOMBSTONES {
      assert m.terminatedOrder[0] in m.terminatedOrder;
      PopOldestListed(m);
      PopOldestKeeps(m, now);
      hide Body, TombstonesListed, AllMapped, CreatorsCapped;
      assert EvictTombstones(m) == EvictTombstones(PopOldest(m));
    }
  }

  lemma TerminateKeepsBody(m: Manager, ref: nat, now: nat)
    requires Body(m, now) && ref < |m.store|
    ensures Body(Terminate(m, ref, now), now)
  {
    var buffer := m.store[ref].buffer;
    WithdrawKeepsBody(m, ref, [], buffer, Dropped, now);
    var w := Withdraw(m, ref, [], buffer, Dropped);
    assert ChanOk(w.store[ref], now);
    PutKeepsBody(w, ref, Terminate(m, ref, now).store[ref], now);
  }

  function Tombstoned(m: Manager, id: ChannelId, now: nat): Manager
    requires m.RefsOk() && id in m.channels
  {
    Terminate(m, m.channels[id], now).(terminatedOrder := m.terminatedOrder + [id])
  }

  lemma TombstonedAt(m: Manager, id: ChannelId, now: nat, x: ChannelId)
    requires Shape(m, now) && m.Live(id) && x in m.channels
    ensures var t := Tombstoned(m, id, now);
            && t.channels == m.channels
            && t.At(x).creatorIp == m.At(x).creatorIp
            && (if x == id then t.At(x).terminated && t.At(x).terminatedAt == now else t.At(x) == m.At(x))
            && m.At(x).terminatedAt <= now
  {
    assert ChanOk(m.At(x), now);
  }

  lemma TombstonedListed(m: Manager, id: ChannelId, now: nat)
    requires Shape(m, now) && Lifecycle(m) && m.Live(id)
    ensures var t := Tombstoned(m, id, now);
            t.RefsOk() && TombstonesListed(t) && AllMapped(t) && CreatorsCapped(t)
  {
    hide ChanOk, Vacant, CreatorsCapped;
    var t := Tombstoned(m, id, now);
    forall x | x in m.channels
      ensures if x == id then t.At(x).terminated && t.At(x).terminatedAt == now else t.At(x) == m.At(x)
      ensures m.At(x).terminatedAt <= now
    {
      TombstonedAt(m, id, now, x);
    }
    TombstonedCapped(m, id, now);
    hide Tombstoned, Terminate;
  }

  lemma TombstonedCapped(m: Manager, id: ChannelId, now: nat)
    requires Shape(m, now) && CreatorsCapped(m) && m.Live(id)
    ensures Tombstoned(m, id, now).RefsOk() && CreatorsCapped(Tombstoned(m, id, now))
  {
    var t := Tombstoned(m, id, now);
    forall x | x in m.channels
      ensures t.At(x).creatorIp == m.At(x).creatorIp && (m.At(x).terminated ==> t.At(x).terminated)
    {
      TombstonedAt(m, id, now, x);
    }
    hide Tombstoned, ChanOk;
    forall ip ensures |CreatedBy(t, ip)| <= |CreatedBy(m, ip)| {
      SubsetIsSmaller(CreatedBy(t, ip), CreatedBy(m, ip));
    }
  }

  lemma TombstonedKeepsBody(m: Manager, id: ChannelId, now: nat)
    requires Body(m, now) && id in m.channels
    ensures Body(Tombstoned(m, id, now), now)
  {
    TerminateKeepsBody(m, m.channels[id], now);
    OrderKeepsBody(Terminate(m, m.channels[id], now), m.terminatedOrder + [id], now);
  }

  lemma CloseUnfolds(m: Manager, id: ChannelId, now: nat)
    requires m.RefsOk()
    ensures if m.Live(id)
            then && Tombstoned(m, id, now).RefsOk()
                 && Close(m, id, now) == (EvictTombstones(Tombstoned(m, id, now)), true)
                 && Tombstoned(m, id, now).terminatedOrder == m.terminatedOrder + [id]
            else Close(m, id, now) == (m, false)
  {
  }

  /** A close tombstones exactly a live channel; over the cap it forgets the oldest tombstone. */
  lemma CloseKeepsSound(m: Manager, id: ChannelId, now: nat)
    requires m.RefsOk() && Sound(m, now)
    ensures Sound(Close(m, id, now).0, now)
    ensures Close(m, id, now).1 <==> m.Live(id)
    ensures m.Live(id) ==>
              Close(m, id, now).0.terminatedOrder ==
              (if |m.terminatedOrder| < MAX_TOMBSTONES then m.terminatedOrder else m.terminatedOrder[1..]) + [id]
  {
    hide Body, TombstonesListed, AllMapped, CreatorsCapped, Tombstoned, Close;
    CloseUnfolds(m, id, now);
    if m.Live(id) {
      BodyShape(m, now);
      TombstonedKeepsBody(m, id, now);
      TombstonedListed(m, id, now);
      EvictKeeps(Tombstoned(m, id, now), now);
    }
  }

  lemma BodyShape(m: Manager, now: nat)
    requires Body(m, now)
    ensures Shape(m, now)
  {
  }
}
