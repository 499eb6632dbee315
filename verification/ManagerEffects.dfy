/** What each manager operation does to seats and to outstanding reservations. */
module ManagerEffects {
  import opened Options
  import opened RelayTypes
  import opened Ledgers
  import opened ManagerSpec
  import opened ManagerSafety

  ghost predicate SeatedAt(m: Manager, id: ChannelId, s: SocketId)
    requires m.RefsOk()
  {
    id in m.channels && s in m.At(id).participants
  }

  /** No seat is gained. */
  ghost predicate NoNewSeats(m: Manager, after: Manager)
    requires m.RefsOk() && after.RefsOk()
  {
    forall x, t :: SeatedAt(after, x, t) ==> SeatedAt(m, x, t)
  }

  /** Channels and their participants are untouched. */
  ghost predicate SameSeats(m: Manager, after: Manager) {
    && after.channels == m.channels
    && |after.store| == |m.store|
    && (forall i :: 0 <= i < |m.store| ==> after.store[i].participants == m.store[i].participants)
  }

  lemma SameSeatsNoNew(m: Manager, after: Manager)
    requires m.RefsOk() && after.RefsOk() && SameSeats(m, after)
    ensures NoNewSeats(m, after)
  {
  }

  // ---------- route ----------

  lemma DirectEffect(m: Manager, ref: nat, s: SocketId, target: SocketId, msg: Message)
    requires ref < |m.store|
    ensures SameSeats(m, RouteDirect(m, ref, s, target, msg).0)
  {
  }

  lemma BufferedEffect(m: Manager, ref: nat, s: SocketId, target: Option<SocketId>, msg: Message)
    requires ref < |m.store|
    ensures SameSeats(m, RouteBuffered(m, ref, s, target, msg).0)
  {
  }

  lemma DispatchEffect(m: Manager, ref: nat, s: SocketId, msg: Message, receivable: set<SocketId>)
    requires ref < |m.store|
    ensures SameSeats(m, Dispatch(m, ref, s, msg, receivable).0)
  {
    var target := Counterpart(m.store[ref].participants, s);
    if target.Some? {
      DirectEffect(m, ref, s, target.value, msg);
    }
    BufferedEffect(m, ref, s, target, msg);
    hide SameSeats, RouteDirect, RouteBuffered;
  }

  lemma RouteEffect(m: Manager, id: ChannelId, s: SocketId, data: Payload, ip: Ip, receivable: set<SocketId>, now: nat)
    requires m.RefsOk()
    ensures SameSeats(m, Route(m, id, s, data, ip, receivable, now).0)
  {
    if id in m.channels && s in m.At(id).participants && data.bytes.Some? {
      var ref, c := m.channels[id], m.At(id);
      var msg := Message(data, Other(c.participants[s]), now, data.bytes.value, ip);
      DispatchEffect(m.Put(ref, c.(lastActivity := now)), ref, s, msg, receivable);
      hide Dispatch;
    }
  }

  lemma BufferedKeepsDeliveries(m: Manager, ref: nat, s: SocketId, target: Option<SocketId>, msg: Message)
    requires ref < |m.store|
    ensures var (after, result) := RouteBuffered(m, ref, s, target, msg);
            after.deliveries == m.deliveries && result.target.None?
  {
    hide BudgetError, Fits;
  }

  lemma DispatchReserves(m: Manager, ref: nat, s: SocketId, msg: Message, receivable: set<SocketId>)
    requires ref < |m.store|
    ensures var (after, result) := Dispatch(m, ref, s, msg, receivable);
            match result.target
            case None => after.deliveries == m.deliveries
            case Some(t) =>
              && t in receivable && t !in m.deliveries && t != s && t in m.store[ref].participants
              && after.deliveries == m.deliveries[t := Reservation(ref, msg.sourceIp, msg.size)]
              && result.error.None? && result.backpressured.None?
  {
    hide RouteBuffered, Fits;
    BufferedKeepsDeliveries(m, ref, s, Counterpart(m.store[ref].participants, s), msg);
  }

  /** A direct write reserves a receivable, unreserved counterparty; otherwise no reservation changes. */
  lemma RouteReserves(m: Manager, id: ChannelId, s: SocketId, data: Payload, ip: Ip, receivable: set<SocketId>,
                      now: nat)
    requires m.RefsOk()
    ensures var (after, result) := Route(m, id, s, data, ip, receivable, now);
            match result.target
            case None => after.deliveries == m.deliveries
            case Some(t) =>
              && t in receivable && t !in m.deliveries && t != s
              && SeatedAt(m, id, s) && SeatedAt(m, id, t)
              && data.bytes.Some?
              && after.deliveries == m.deliveries[t := Reservation(m.channels[id], ip, data.bytes.value)]
              && result.error.None? && result.backpressured.None?
  {
    hide RouteDirect, RouteBuffered, FitsDirectly, Counterpart;
    if SeatedAt(m, id, s) && data.bytes.Some? {
      var ref, c := m.channels[id], m.At(id);
      var touched := m.Put(ref, c.(lastActivity := now));
      var msg := Message(data, Other(c.participants[s]), now, data.bytes.value, ip);
      DispatchReserves(touched, ref, s, msg, receivable);
    }
  }

  // ---------- advance and release ----------

  lemma ReleaseEffect(m: Manager, s: SocketId)
    requires m.RefsOk()
    ensures SameSeats(m, Release(m, s))
    ensures Release(m, s).deliveries == m.deliveries - {s}
  {
  }

  lemma AdvanceEffect(m: Manager, s: SocketId)
    requires m.RefsOk()
    ensures var (after, next) := Advance(m, s);
            && SameSeats(m, after)
            && (next.None? ==> after.deliveries == m.deliveries - {s})
            && (next.Some? ==> s in m.deliveries && s in after.deliveries
                               && after.deliveries[s].channel == m.deliveries[s].channel
                               && after.deliveries == m.deliveries[s := after.deliveries[s]])
  {
    if s in m.deliveries {
      var free := Release(m, s);
      var ref := m.deliveries[s].channel;
      var c := m.store[ref];
      if s in c.participants && FirstFor(c.buffer, c.participants[s]) < |c.buffer| && !c.terminated {
        var next := Promote(free, ref, s, FirstFor(c.buffer, c.participants[s]));
        assert next.deliveries == m.deliveries[s := next.deliveries[s]];
        assert SameSeats(m, next);
      }
    }
  }

  // ---------- leave, close, cleanup ----------

  lemma LeaveEffect(m: Manager, s: SocketId, id: ChannelId, now: nat)
    requires m.RefsOk()
    ensures var after := Leave(m, s, id, now).0;
            && after.deliveries == m.deliveries
            && after.channels == m.channels
            && NoNewSeats(m, after)
            && !SeatedAt(after, id, s)
            && (forall x, t :: SeatedAt(m, x, t) && t != s ==> SeatedAt(after, x, t))
  {
  }

  lemma LeaveKeepsOthers(m: Manager, s: SocketId, id: ChannelId, now: nat, x: ChannelId)
    requires m.RefsOk() && x in m.channels && (id in m.channels ==> m.channels[x] != m.channels[id])
    ensures Leave(m, s, id, now).0.At(x) == m.At(x)
  {
  }

  lemma {:induction false} EvictEffect(m: Manager)
    requires m.RefsOk()
    ensures var after := EvictTombstones(m);
            && after.deliveries == m.deliveries
            && after.store == m.store
            && NoNewSeats(m, after)
    decreases |m.terminatedOrder|
  {
    if |m.terminatedOrder| > MAX_TOMBSTONES {
      var oldest := m.terminatedOrder[0];
      var popped := m.(terminatedOrder := m.terminatedOrder[1..]);
      var next := if oldest in m.channels && m.At(oldest).terminated then Unmap(popped, oldest) else popped;
      EvictEffect(next);
      assert NoNewSeats(m, next);
    }
  }

  lemma CloseEffect(m: Manager, id: ChannelId, now: nat)
    requires m.RefsOk()
    ensures Close(m, id, now).0.deliveries == m.deliveries
    ensures NoNewSeats(m, Close(m, id, now).0)
  {
    if id in m.channels && !m.At(id).terminated {
      var t := Terminate(m, m.channels[id], now);
      var listed := t.(terminatedOrder := t.terminatedOrder + [id]);
      assert NoNewSeats(m, listed);
      EvictEffect(listed);
    }
  }

  lemma SweepOneEffect(m: Manager, id: ChannelId, now: nat)
    requires m.RefsOk()
    ensures var after := SweepOne(m, id, now);
            after.deliveries == m.deliveries && NoNewSeats(m, after)
  {
  }

  lemma {:induction false} SweepEachEffect(m: Manager, ids: seq<ChannelId>, now: nat)
    requires m.RefsOk()
    ensures var after := SweepEach(m, ids, now);
            after.deliveries == m.deliveries && NoNewSeats(m, after)
  {
    if ids != [] {
      SweepEachEffect(m, ids[..|ids| - 1], now);
      SweepOneEffect(SweepEach(m, ids[..|ids| - 1], now), ids[|ids| - 1], now);
    }
  }

  lemma CleanupEffect(m: Manager, ids: seq<ChannelId>, now: nat)
    requires m.RefsOk()
    ensures Cleanup(m, ids, now).deliveries == m.deliveries
    ensures NoNewSeats(m, Cleanup(m, ids, now))
  {
    SweepEachEffect(m, ids, now);
    assert NoNewSeats(SweepEach(m, ids, now), Cleanup(m, ids, now));
  }

  // ---------- join ----------

  /** Only `ref` changes, only by seating `s` if `gained` and unseating others; only an inactive socket is released. */
  ghost predicate Reseated(m: Manager, after: Manager, ref: nat, s: SocketId, gained: bool, active: set<SocketId>)
    requires ref < |m.store|
  {
    && after.channels == m.channels
    && |after.store| == |m.store|
    && (forall i :: 0 <= i < |m.store| && i != ref ==>
          after.store[i].participants == m.store[i].participants && after.store[i].buffer == m.store[i].buffer)
    && after.store[ref].participants.Keys <= m.store[ref].participants.Keys + (if gained then {s} else {})
    && (s in m.store[ref].participants ==> s in after.store[ref].participants)
    && (after.deliveries == m.deliveries || exists o :: o !in active && after.deliveries == m.deliveries - {o})
  }

  ghost predicate SeatedWith(after: Manager, ref: nat, s: SocketId, role: ClientType)
    requires ref < |after.store|
  {
    && s in after.store[ref].participants
    && after.store[ref].participants[s] == role
    && For(after.store[ref].buffer, role) == []
  }

  lemma AdmitUnlessFullEffect(m: Manager, ref: nat, s: SocketId, role: ClientType, key: Option<Key>, now: nat)
    requires m.RefsOk() && ref < |m.store|
    ensures var (after, result) := AdmitUnlessFull(m, ref, s, role, key, now);
            && after.channels == m.channels
            && after.deliveries == m.deliveries
            && |after.store| == |m.store|
            && (forall i :: 0 <= i < |m.store| && i != ref ==> after.store[i] == m.store[i])
            && after.store[ref].participants ==
               (if result.Joined? then m.store[ref].participants[s := role] else m.store[ref].participants)
            && (result.Joined? ==> !result.terminated && For(after.store[ref].buffer, role) == [])
  {
    var (after, result) := AdmitUnlessFull(m, ref, s, role, key, now);
    if result.Joined? {
      PickOppositeIsEmpty(m.store[ref].buffer, ForRole(role));
    }
  }

  lemma {:induction false} PickOppositeIsEmpty(ms: seq<Message>, sieve: Sieve)
    ensures Pick(Pick(ms, sieve, false), sieve, true) == []
  {
    PickAll(Pick(ms, sieve, false), sieve, false);
  }

  lemma ReplaceRivalEffect(m: Manager, ref: nat, s: SocketId, o: SocketId, active: set<SocketId>)
    requires m.RefsOk() && ref < |m.store| && o !in active && o != s
    ensures Reseated(m, Release(RemoveParticipant(m, ref, o), o), ref, s, false, active)
  {
    assert Release(RemoveParticipant(m, ref, o), o).deliveries == m.deliveries - {o};
  }

  lemma AdmitReseats(m: Manager, ref: nat, s: SocketId, role: ClientType, key: Option<Key>,
                     active: set<SocketId>, now: nat)
    requires m.RefsOk() && ref < |m.store|
    ensures var (after, result) := AdmitUnlessFull(m, ref, s, role, key, now);
            && Reseated(m, after, ref, s, result.Joined?, active)
            && (result.Joined? ==> !result.terminated && SeatedWith(after, ref, s, role))
  {
    AdmitUnlessFullEffect(m, ref, s, role, key, now);
    hide AdmitUnlessFull;
  }

  lemma ReseatedTwice(m: Manager, freed: Manager, after: Manager, ref: nat, s: SocketId,
                      gained: bool, active: set<SocketId>)
    requires ref < |m.store| && Reseated(m, freed, ref, s, false, active)
    requires Reseated(freed, after, ref, s, gained, active) && after.deliveries == freed.deliveries
    ensures Reseated(m, after, ref, s, gained, active)
  {
  }

  lemma ReplaceAndAdmitReseats(m: Manager, ref: nat, s: SocketId, o: SocketId, role: ClientType, key: Option<Key>,
                               active: set<SocketId>, now: nat)
    requires m.RefsOk() && ref < |m.store| && o !in active && o != s
    ensures var (after, result) := AdmitUnlessFull(Release(RemoveParticipant(m, ref, o), o), ref, s, role, key, now);
            && Reseated(m, after, ref, s, result.Joined?, active)
            && (result.Joined? ==> !result.terminated && SeatedWith(after, ref, s, role))
  {
    hide AdmitUnlessFull, Reseated, SeatedWith;
    var freed := Release(RemoveParticipant(m, ref, o), o);
    ReplaceRivalEffect(m, ref, s, o, active);
    AdmitReseats(freed, ref, s, role, key, active, now);
    AdmitUnlessFullEffect(freed, ref, s, role, key, now);
    var (after, result) := AdmitUnlessFull(freed, ref, s, role, key, now);
    ReseatedTwice(m, freed, after, ref, s, result.Joined?, active);
  }

  lemma ReseatedSelf(m: Manager, ref: nat, s: SocketId, active: set<SocketId>)
    requires ref < |m.store|
    ensures Reseated(m, m, ref, s, false, active)
  {
  }

  lemma JoinExistingEffect(m: Manager, ref: nat, s: SocketId, role: ClientType, key: Option<Key>,
                           active: set<SocketId>, now: nat)
    requires m.RefsOk() && ref < |m.store|
    ensures var (after, result) := JoinExisting(m, ref, s, role, key, active, now);
            && Reseated(m, after, ref, s, result.Joined?, active)
            && (result.Joined? ==> !result.terminated && SeatedWith(after, ref, s, role))
  {
    hide AdmitUnlessFull, Reseated, SeatedWith;
    var rival := Rival(m.store[ref].participants, s, role);
    ReseatedSelf(m, ref, s, active);
    AdmitReseats(m, ref, s, role, key, active, now);
    if rival.Some? && rival.value !in active {
      ReplaceAndAdmitReseats(m, ref, s, rival.value, role, key, active, now);
    }
  }

  /** A join can only add its own seat, and it never costs the joining socket a seat it has. */
  ghost predicate JoinStep(m: Manager, after: Manager, id: ChannelId, s: SocketId, gained: bool, active: set<SocketId>)
    requires m.RefsOk() && after.RefsOk()
  {
    && (forall x, t :: SeatedAt(after, x, t) ==> SeatedAt(m, x, t) || (gained && x == id && t == s))
    && (forall x :: SeatedAt(m, x, s) ==> SeatedAt(after, x, s))
    && (after.deliveries == m.deliveries || exists o :: o !in active && after.deliveries == m.deliveries - {o})
  }

  lemma ReseatedIsJoinStep(m: Manager, after: Manager, id: ChannelId, s: SocketId, gained: bool, active: set<SocketId>)
    requires m.RefsOk() && after.RefsOk() && id in m.channels
    requires forall a, b :: a in m.channels && b in m.channels && m.channels[a] == m.channels[b] ==> a == b
    requires Reseated(m, after, m.channels[id], s, gained, active)
    ensures JoinStep(m, after, id, s, gained, active)
  {
  }

  lemma JoinStepSelf(m: Manager, id: ChannelId, s: SocketId, active: set<SocketId>)
    requires m.RefsOk()
    ensures JoinStep(m, m, id, s, false, active)
  {
  }

  lemma JoinEffect(m: Manager, id: ChannelId, s: SocketId, role: ClientType, offer: KeyOffer,
                   creatorIp: Option<Ip>, active: set<SocketId>, now: nat)
    requires Shape(m, now)
    ensures var (after, result) := Join(m, id, s, role, offer, creatorIp, active, now);
            && JoinStep(m, after, id, s, result.Joined? && !result.terminated, active)
            && (result.Joined? && !result.terminated ==>
                  id in after.channels && SeatedWith(after, after.channels[id], s, role))
  {
    hide SeatedWith, JoinExisting, Reseated, JoinStep, ChanOk;
    var key := CanonicalKey(role, offer);
    var (after, result) := Join(m, id, s, role, offer, creatorIp, active, now);
    JoinStepSelf(m, id, s, active);
    if role.Dapp? && offer.Malformed? {
    } else if id in m.channels {
      if !m.At(id).terminated {
        JoinExistingEffect(m, m.channels[id], s, role, key, active, now);
        ReseatedIsJoinStep(m, after, id, s, result.Joined?, active);
        ReseatedFacts(m, after, m.channels[id], s, result.Joined?, active);
      }
    } else if !AtChannelCap(m, creatorIp) {
      var grown := Allocate(m, id, creatorIp, now);
      AllocateKeepsShape(m, id, creatorIp, now);
      hide Shape;
      JoinExistingEffect(grown, |m.store|, s, role, key, active, now);
      ReseatedIsJoinStep(grown, after, id, s, result.Joined?, active);
      ReseatedFacts(grown, after, |m.store|, s, result.Joined?, active);
      AllocateJoinStep(m, after, id, creatorIp, s, result.Joined?, active, now);
    }
  }

  lemma ReseatedFacts(m: Manager, after: Manager, ref: nat, s: SocketId, gained: bool, active: set<SocketId>)
    requires ref < |m.store| && Reseated(m, after, ref, s, gained, active)
    ensures after.channels == m.channels && |after.store| == |m.store|
  {
  }

  lemma AllocateKeepsShape(m: Manager, id: ChannelId, creatorIp: Option<Ip>, now: nat)
    requires Shape(m, now) && id !in m.channels
    ensures var grown := Allocate(m, id, creatorIp, now);
            && grown.RefsOk()
            && (forall a, b ::
                  a in grown.channels && b in grown.channels && grown.channels[a] == grown.channels[b] ==> a == b)
            && grown.channels == m.channels[id := |m.store|]
  {
  }

  lemma AllocateJoinStep(m: Manager, after: Manager, id: ChannelId, creatorIp: Option<Ip>,
                         s: SocketId, gained: bool, active: set<SocketId>, now: nat)
    requires m.RefsOk() && after.RefsOk() && id !in m.channels
    requires Allocate(m, id, creatorIp, now).RefsOk()
    requires JoinStep(Allocate(m, id, creatorIp, now), after, id, s, gained, active)
    ensures JoinStep(m, after, id, s, gained, active)
  {
    var grown := Allocate(m, id, creatorIp, now);
    forall x, t ensures SeatedAt(grown, x, t) <==> SeatedAt(m, x, t) {}
  }

  /** Apart from the seat it may gain, a join only removes seats and buffered messages. */
  ghost predicate JoinCalm(m: Manager, after: Manager, id: ChannelId, s: SocketId, gained: bool)
    requires m.RefsOk() && after.RefsOk()
  {
    forall x: ChannelId, t: SocketId :: SeatedAt(after, x, t) && !(gained && x == id && t == s) ==>
      && SeatedAt(m, x, t)
      && after.channels[x] == m.channels[x]
      && after.At(x).participants[t] == m.At(x).participants[t]
      && (forall msg :: msg in after.At(x).buffer ==> msg in m.At(x).buffer)
  }

  ghost predicate ChanCalm(c: Chan, after: Chan, s: SocketId, gained: bool) {
    && (forall t :: t in after.participants && !(gained && t == s) ==>
          t in c.participants && after.participants[t] == c.participants[t])
    && (forall msg :: msg in after.buffer ==> msg in c.buffer)
  }

  lemma AdmitCalm(m: Manager, ref: nat, s: SocketId, role: ClientType, key: Option<Key>, now: nat)
    requires m.RefsOk() && ref < |m.store|
    ensures var (after, result) := AdmitUnlessFull(m, ref, s, role, key, now);
            ref < |after.store| && ChanCalm(m.store[ref], after.store[ref], s, result.Joined?)
  {
    AdmitUnlessFullEffect(m, ref, s, role, key, now);
  }

  lemma ReplaceRivalCalm(m: Manager, ref: nat, s: SocketId, o: SocketId)
    requires m.RefsOk() && ref < |m.store|
    ensures ChanCalm(m.store[ref], Release(RemoveParticipant(m, ref, o), o).store[ref], s, false)
  {
  }

  lemma ChanCalmTwice(a: Chan, b: Chan, c: Chan, s: SocketId, gained: bool)
    requires ChanCalm(a, b, s, false) && ChanCalm(b, c, s, gained)
    ensures ChanCalm(a, c, s, gained)
  {
  }

  lemma ReplaceAndAdmitCalm(m: Manager, ref: nat, s: SocketId, o: SocketId, role: ClientType, key: Option<Key>,
                            now: nat)
    requires m.RefsOk() && ref < |m.store|
    ensures var (after, result) := AdmitUnlessFull(Release(RemoveParticipant(m, ref, o), o), ref, s, role, key, now);
            ref < |after.store| && ChanCalm(m.store[ref], after.store[ref], s, result.Joined?)
  {
    hide ChanCalm, AdmitUnlessFull;
    var freed := Release(RemoveParticipant(m, ref, o), o);
    ReplaceRivalCalm(m, ref, s, o);
    AdmitCalm(freed, ref, s, role, key, now);
    var (after, result) := AdmitUnlessFull(freed, ref, s, role, key, now);
    ChanCalmTwice(m.store[ref], freed.store[ref], after.store[ref], s, result.Joined?);
  }

  lemma ChanCalmSelf(c: Chan, s: SocketId)
    ensures ChanCalm(c, c, s, false)
  {
  }

  lemma JoinExistingCalm(m: Manager, ref: nat, s: SocketId, role: ClientType, key: Option<Key>,
                         active: set<SocketId>, now: nat)
    requires m.RefsOk() && ref < |m.store|
    ensures var (after, result) := JoinExisting(m, ref, s, role, key, active, now);
            ref < |after.store| && ChanCalm(m.store[ref], after.store[ref], s, result.Joined?)
  {
    hide ChanCalm, AdmitUnlessFull;
    ChanCalmSelf(m.store[ref], s);
    AdmitCalm(m, ref, s, role, key, now);
    var rival := Rival(m.store[ref].participants, s, role);
    if rival.Some? {
      ReplaceAndAdmitCalm(m, ref, s, rival.value, role, key, now);
    }
  }

  lemma ChanCalmIsJoinCalm(m: Manager, after: Manager, id: ChannelId, s: SocketId, gained: bool, active: set<SocketId>)
    requires m.RefsOk() && after.RefsOk() && id in m.channels
    requires forall a, b :: a in m.channels && b in m.channels && m.channels[a] == m.channels[b] ==> a == b
    requires Reseated(m, after, m.channels[id], s, gained, active)
    requires ChanCalm(m.At(id), after.store[m.channels[id]], s, gained)
    ensures JoinCalm(m, after, id, s, gained)
  {
  }

  lemma AllocateJoinCalm(m: Manager, after: Manager, id: ChannelId, creatorIp: Option<Ip>, s: SocketId,
                         gained: bool, now: nat)
    requires m.RefsOk() && after.RefsOk() && id !in m.channels
    requires Allocate(m, id, creatorIp, now).RefsOk() && JoinCalm(Allocate(m, id, creatorIp, now), after, id, s, gained)
    ensures JoinCalm(m, after, id, s, gained)
  {
    var grown := Allocate(m, id, creatorIp, now);
    assert grown.At(id).participants == map[];
    forall x: ChannelId | x in m.channels ensures grown.channels[x] == m.channels[x] && grown.At(x) == m.At(x) {}
    forall x: ChannelId, t: SocketId | SeatedAt(after, x, t) && !(gained && x == id && t == s)
      ensures && SeatedAt(m, x, t)
              && after.channels[x] == m.channels[x]
              && after.At(x).participants[t] == m.At(x).participants[t]
              && (forall msg :: msg in after.At(x).buffer ==> msg in m.At(x).buffer)
    {
      assert SeatedAt(grown, x, t);
    }
  }

  lemma JoinCalmSelf(m: Manager, id: ChannelId, s: SocketId)
    requires m.RefsOk()
    ensures JoinCalm(m, m, id, s, false)
  {
  }

  lemma JoinCalms(m: Manager, id: ChannelId, s: SocketId, role: ClientType, offer: KeyOffer,
                  creatorIp: Option<Ip>, active: set<SocketId>, now: nat)
    requires Shape(m, now)
    ensures var (after, result) := Join(m, id, s, role, offer, creatorIp, active, now);
            JoinCalm(m, after, id, s, result.Joined? && !result.terminated)
  {
    hide SeatedWith, JoinExisting, Reseated, JoinCalm, ChanCalm, ChanOk;
    var key := CanonicalKey(role, offer);
    var (after, result) := Join(m, id, s, role, offer, creatorIp, active, now);
    JoinCalmSelf(m, id, s);
    if role.Dapp? && offer.Malformed? {
    } else if id in m.channels {
      if !m.At(id).terminated {
        JoinExistingEffect(m, m.channels[id], s, role, key, active, now);
        JoinExistingCalm(m, m.channels[id], s, role, key, active, now);
        ChanCalmIsJoinCalm(m, after, id, s, result.Joined?, active);
      }
    } else if !AtChannelCap(m, creatorIp) {
      var grown := Allocate(m, id, creatorIp, now);
      AllocateKeepsShape(m, id, creatorIp, now);
      hide Shape;
      JoinExistingEffect(grown, |m.store|, s, role, key, active, now);
      JoinExistingCalm(grown, |m.store|, s, role, key, active, now);
      ChanCalmIsJoinCalm(grown, after, id, s, result.Joined?, active);
      AllocateJoinCalm(m, after, id, creatorIp, s, result.Joined?, now);
    }
  }

  /** A live channel keeps its object through any join; a new one gets a new object. */
  lemma JoinKeepsObjects(m: Manager, id: ChannelId, s: SocketId, role: ClientType, offer: KeyOffer,
                         creatorIp: Option<Ip>, active: set<SocketId>, now: nat)
    requires m.RefsOk()
    ensures var after := Join(m, id, s, role, offer, creatorIp, active, now).0;
            && (forall x :: x in m.channels ==> x in after.channels && after.channels[x] == m.channels[x])
            && (id !in m.channels && id in after.channels ==> after.channels[id] == |m.store|)
  {
    hide JoinExisting, Reseated, SeatedWith;
    var key := CanonicalKey(role, offer);
    var (after, result) := Join(m, id, s, role, offer, creatorIp, active, now);
    if id in m.channels {
      JoinExistingEffect(m, m.channels[id], s, role, key, active, now);
      if m.Live(id) && !(role.Dapp? && offer.Malformed?) {
        ReseatedFacts(m, after, m.channels[id], s, result.Joined?, active);
      }
    } else {
      var grown := Allocate(m, id, creatorIp, now);
      JoinExistingEffect(grown, |m.store|, s, role, key, active, now);
      if !(role.Dapp? && offer.Malformed?) && !AtChannelCap(m, creatorIp) {
        ReseatedFacts(grown, after, |m.store|, s, result.Joined?, active);
      }
    }
  }
}
