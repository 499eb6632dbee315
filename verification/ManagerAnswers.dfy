/**
 What the manager's answers mean: how each result relates to the history the
 operation leaves behind. A join hands back exactly what it settles, and is refused for its first fault; a routed
 message is recorded once, with its disposition; a budget refusal is never
 spurious; a promotion hands over the oldest waiting message.
 */
module ManagerAnswers {
  import opened Options
  import opened RelayTypes
  import opened Ledgers
  import opened ManagerSpec
  import opened ManagerSafety
  import opened ManagerOps
  import opened ManagerRouting
  import opened ManagerEffects
  import opened DeliveryOrder

  // ---------- join ----------

  /** The messages a join returned: all that waited for the role, in order, and nothing else. */
  ghost predicate HandsBack(c: Chan, d: Chan, role: ClientType, messages: seq<Payload>) {
    var out := For(c.buffer, role);
    && messages == Payloads(out)
    && d.settled == c.settled + Tag(out, Returned)
    && d.buffer == For(c.buffer, Other(role))
    && d.accepted == c.accepted
  }

  /** The roster names the role of every participant but the joiner. */
  ghost predicate Lists(parts: map<SocketId, ClientType>, s: SocketId, roster: seq<ClientType>) {
    && (forall o :: o in parts && o != s ==> roster == [parts[o]])
    && ((forall o :: o in parts ==> o == s) ==> roster == [])
  }

  lemma AdmitAnswers(m: Manager, ref: nat, s: SocketId, role: ClientType, key: Option<Key>, now: nat)
    requires ref < |m.store| && RoleUnique(m.store[ref].participants)
    requires Uncontested(m.store[ref].participants, s, role)
    ensures var (after, result) := AdmitUnlessFull(m, ref, s, role, key, now);
            result.Joined? ==>
              && ref < |after.store|
              && HandsBack(m.store[ref], after.store[ref], role, result.messages)
              && Lists(after.store[ref].participants, s, result.roster)
  {
    var c := m.store[ref];
    var (after, result) := AdmitUnlessFull(m, ref, s, role, key, now);
    if result.Joined? {
      NotMineIsYours(c.buffer, role);
      CounterpartTakesOtherRole(c.participants[s := role], s);
      assert HandsBack(c, after.store[ref], role, result.messages) by {
        assert after.store[ref].settled == c.settled + Tag(For(c.buffer, role), Returned);
      }
    }
  }

  lemma ReplaceRivalFacts(m: Manager, ref: nat, o: SocketId, s: SocketId, role: ClientType)
    requires m.RefsOk() && ref < |m.store| && RoleUnique(m.store[ref].participants)
    requires o in m.store[ref].participants && m.store[ref].participants[o] == role && o != s
    requires s in m.store[ref].participants ==> m.store[ref].participants[s] == role
    ensures var freed := Release(RemoveParticipant(m, ref, o), o);
            && ref < |freed.store|
            && RoleUnique(freed.store[ref].participants) && Uncontested(freed.store[ref].participants, s, role)
            && freed.store[ref].buffer == m.store[ref].buffer
            && freed.store[ref].settled == m.store[ref].settled
            && freed.store[ref].accepted == m.store[ref].accepted
  {
    var freed := Release(RemoveParticipant(m, ref, o), o);
    assert freed.store[ref].participants == m.store[ref].participants - {o};
  }

  lemma UncontestedUnless(parts: map<SocketId, ClientType>, s: SocketId, role: ClientType)
    requires RoleUnique(parts)
    ensures Rival(parts, s, role).None? && (s in parts ==> parts[s] == role) ==> Uncontested(parts, s, role)
  {
  }

  lemma JoinExistingAnswers(m: Manager, ref: nat, s: SocketId, role: ClientType, key: Option<Key>,
                            active: set<SocketId>, now: nat)
    requires m.RefsOk() && ref < |m.store| && RoleUnique(m.store[ref].participants)
    ensures var (after, result) := JoinExisting(m, ref, s, role, key, active, now);
            result.Joined? ==>
              && ref < |after.store|
              && HandsBack(m.store[ref], after.store[ref], role, result.messages)
              && Lists(after.store[ref].participants, s, result.roster)
  {
    hide AdmitUnlessFull, HandsBack, Lists, Release, RoleUnique, Uncontested;
    UncontestedUnless(m.store[ref].participants, s, role);
    var parts := m.store[ref].participants;
    var rival := Rival(parts, s, role);
    if s in parts && parts[s] != role {
    } else if rival.Some? {
      ReplaceRivalFacts(m, ref, rival.value, s, role);
      var freed := Release(RemoveParticipant(m, ref, rival.value), rival.value);
      AdmitAnswers(freed, ref, s, role, key, now);
      var (after, result) := AdmitUnlessFull(freed, ref, s, role, key, now);
      if result.Joined? {
        SameBufferHandsBack(m.store[ref], freed.store[ref], after.store[ref], role, result.messages);
      }
    } else {
      AdmitAnswers(m, ref, s, role, key, now);
    }
  }

  lemma SameBufferHandsBack(c: Chan, e: Chan, d: Chan, role: ClientType, messages: seq<Payload>)
    requires HandsBack(e, d, role, messages)
    requires e.buffer == c.buffer && e.settled == c.settled && e.accepted == c.accepted
    ensures HandsBack(c, d, role, messages)
  {
  }

  /** A successful join hands back exactly the messages that waited for the role, in order, and lists everyone else. */
  lemma JoinAnswers(m: Manager, id: ChannelId, s: SocketId, role: ClientType, offer: KeyOffer,
                    creatorIp: Option<Ip>, active: set<SocketId>, now: nat)
    requires m.RefsOk() && Shape(m, now)
    requires var r := Join(m, id, s, role, offer, creatorIp, active, now).1; r.Joined? && !r.terminated
    ensures var (after, result) := Join(m, id, s, role, offer, creatorIp, active, now);
            var c := if id in m.channels then m.At(id) else FreshChan(creatorIp, now);
            && id in after.channels
            && HandsBack(c, after.At(id), role, result.messages)
            && Lists(after.At(id).participants, s, result.roster)
  {
    hide HandsBack, Lists, JoinExisting;
    var key := CanonicalKey(role, offer);
    if id in m.channels {
      assert ChanOk(m.At(id), now);
      JoinExistingAnswers(m, m.channels[id], s, role, key, active, now);
      JoinExistingEffect(m, m.channels[id], s, role, key, active, now);
    } else {
      var grown := Allocate(m, id, creatorIp, now);
      JoinExistingAnswers(grown, |m.store|, s, role, key, active, now);
      JoinExistingEffect(grown, |m.store|, s, role, key, active, now);
    }
  }

  // ---------- When a join is refused ----------

  /** What is wrong with a join, whatever else may be wrong with it. */
  ghost predicate Fault(m: Manager, id: ChannelId, s: SocketId, role: ClientType, offer: KeyOffer,
                        creatorIp: Option<Ip>, active: set<SocketId>, error: JoinError)
    requires m.RefsOk()
  {
    match error
    case BadKey(e) => role.Dapp? && offer == Malformed(e)
    case TooManyChannels =>
      && id !in m.channels && creatorIp.Some? && m.limits.maxChannelsPerIp.Some?
      && |set x | x in m.channels && !m.At(x).terminated && m.At(x).creatorIp == creatorIp| >=
         m.limits.maxChannelsPerIp.value
    case KeyRequired => role.Dapp? && offer.Absent? && id in m.channels && m.At(id).publicKey.Some?
    case RoleChange => SeatedAt(m, id, s) && m.At(id).participants[s] != role
    case AlreadyConnected =>
      exists o: SocketId :: SeatedAt(m, id, o) && o != s && m.At(id).participants[o] == role && o in active
    case ChannelFull => false
    case KeyMismatch =>
      && role.Dapp? && offer.Decoded?
      && id in m.channels && m.At(id).publicKey.Some? && m.At(id).publicKey.value != offer.key
  }

  /** The order in which faults are reported. */
  function Rank(error: JoinError): nat {
    match error
    case BadKey(_) => 0
    case TooManyChannels => 1
    case KeyRequired => 2
    case RoleChange => 3
    case AlreadyConnected => 4
    case ChannelFull => 5
    case KeyMismatch => 6
  }

  ghost predicate Tombstone(m: Manager, id: ChannelId)
    requires m.RefsOk()
  {
    id in m.channels && m.At(id).terminated
  }

  /** Nothing is wrong with the join, and the channel is not a tombstone. */
  ghost predicate Admits(m: Manager, id: ChannelId, s: SocketId, role: ClientType, offer: KeyOffer,
                         creatorIp: Option<Ip>, active: set<SocketId>)
    requires m.RefsOk()
  {
    !Tombstone(m, id) && forall error :: !Fault(m, id, s, role, offer, creatorIp, active, error)
  }

  /** The checks made once no rival is left can only fail on the key. */
  lemma AdmitRefusesIff(m: Manager, ref: nat, s: SocketId, role: ClientType, key: Option<Key>, now: nat)
    requires ref < |m.store| && RoleUnique(m.store[ref].participants)
    requires Uncontested(m.store[ref].participants, s, role)
    ensures var result := AdmitUnlessFull(m, ref, s, role, key, now).1;
            var bound := m.store[ref].publicKey;
            if key.Some? && bound.Some? && bound != key then result == Refused(KeyMismatch)
            else result.Joined? && !result.terminated
  {
    if s !in m.store[ref].participants {
      RoomForAnother(m.store[ref].participants, s, role);
    }
  }

  /** What an existing channel makes of a join, read off who is seated and which key is bound. */
  lemma JoinExistingRefusesIff(m: Manager, ref: nat, s: SocketId, role: ClientType, key: Option<Key>,
                               active: set<SocketId>, now: nat)
    requires m.RefsOk() && ref < |m.store| && RoleUnique(m.store[ref].participants)
    ensures var result := JoinExisting(m, ref, s, role, key, active, now).1;
            var parts, bound := m.store[ref].participants, m.store[ref].publicKey;
            if role.Dapp? && bound.Some? && key.None? then result == Refused(KeyRequired)
            else if s in parts && parts[s] != role then result == Refused(RoleChange)
            else if exists o: SocketId :: o in parts && o != s && parts[o] == role && o in active
            then result == Refused(AlreadyConnected)
            else if key.Some? && bound.Some? && bound != key then result == Refused(KeyMismatch)
            else result.Joined? && !result.terminated
  {
    hide AdmitUnlessFull;
    var parts := m.store[ref].participants;
    var rival := Rival(parts, s, role);
    if s in parts && parts[s] != role {
    } else if rival.Some? {
      ReplaceRivalFacts(m, ref, rival.value, s, role);
      var freed := Release(RemoveParticipant(m, ref, rival.value), rival.value);
      assert freed.store[ref].publicKey == m.store[ref].publicKey;
      AdmitRefusesIff(freed, ref, s, role, key, now);
    } else {
      AdmitRefusesIff(m, ref, s, role, key, now);
    }
  }

  /** The fault of a join that is reported, if it has any. */
  ghost function FirstFault(m: Manager, id: ChannelId, s: SocketId, role: ClientType, offer: KeyOffer,
                            creatorIp: Option<Ip>, active: set<SocketId>): (first: Option<JoinError>)
    requires m.RefsOk()
    ensures first.None? ==> forall other :: !Fault(m, id, s, role, offer, creatorIp, active, other)
    ensures first.Some? ==>
              && Fault(m, id, s, role, offer, creatorIp, active, first.value)
              && forall other :: Fault(m, id, s, role, offer, creatorIp, active, other) ==>
                   other == first.value || Rank(first.value) < Rank(other)
  {
    if role.Dapp? && offer.Malformed? then Some(BadKey(offer.error))
    else if Fault(m, id, s, role, offer, creatorIp, active, TooManyChannels) then Some(TooManyChannels)
    else if Fault(m, id, s, role, offer, creatorIp, active, KeyRequired) then Some(KeyRequired)
    else if Fault(m, id, s, role, offer, creatorIp, active, RoleChange) then Some(RoleChange)
    else if Fault(m, id, s, role, offer, creatorIp, active, AlreadyConnected) then Some(AlreadyConnected)
    else if Fault(m, id, s, role, offer, creatorIp, active, KeyMismatch) then Some(KeyMismatch)
    else None
  }

  lemma ShapeOfNamed(m: Manager, id: ChannelId, now: nat)
    requires m.RefsOk() && Shape(m, now)
    ensures id in m.channels ==> RoleUnique(m.At(id).participants)
    ensures Tombstone(m, id) ==> m.At(id).participants == map[] && m.At(id).publicKey.None?
    ensures RoleUnique(map[])
  {
    if id in m.channels {
      assert ChanOk(m.At(id), now);
    }
  }

  ghost predicate ReportsFirst(m: Manager, id: ChannelId, s: SocketId, role: ClientType, offer: KeyOffer,
                               creatorIp: Option<Ip>, active: set<SocketId>, now: nat)
    requires m.RefsOk()
  {
    var result := Join(m, id, s, role, offer, creatorIp, active, now).1;
    match FirstFault(m, id, s, role, offer, creatorIp, active)
    case Some(e) => result == Refused(e)
    case None => result.Joined? && result.terminated == Tombstone(m, id)
  }

  lemma KnownReportsFirst(m: Manager, id: ChannelId, s: SocketId, role: ClientType, offer: KeyOffer,
                          creatorIp: Option<Ip>, active: set<SocketId>, now: nat)
    requires m.RefsOk() && Shape(m, now) && id in m.channels && !m.At(id).terminated
    ensures ReportsFirst(m, id, s, role, offer, creatorIp, active, now)
  {
    hide JoinExisting, Shape, ChanOk, RoleUnique;
    ShapeOfNamed(m, id, now);
    JoinExistingRefusesIff(m, m.channels[id], s, role, CanonicalKey(role, offer), active, now);
    assert forall o: SocketId :: SeatedAt(m, id, o) <==> o in m.At(id).participants;
  }

  lemma UnknownReportsFirst(m: Manager, id: ChannelId, s: SocketId, role: ClientType, offer: KeyOffer,
                            creatorIp: Option<Ip>, active: set<SocketId>, now: nat)
    requires m.RefsOk() && id !in m.channels
    ensures ReportsFirst(m, id, s, role, offer, creatorIp, active, now)
  {
    hide JoinExisting;
    if creatorIp.Some? {
      assert CreatedBy(m, creatorIp.value) ==
             set x | x in m.channels && !m.At(x).terminated && m.At(x).creatorIp == creatorIp;
    }
    JoinExistingRefusesIff(Allocate(m, id, creatorIp, now), |m.store|, s, role, CanonicalKey(role, offer), active, now);
  }

  lemma TombstoneReportsFirst(m: Manager, id: ChannelId, s: SocketId, role: ClientType, offer: KeyOffer,
                              creatorIp: Option<Ip>, active: set<SocketId>, now: nat)
    requires m.RefsOk() && Shape(m, now) && Tombstone(m, id)
    ensures ReportsFirst(m, id, s, role, offer, creatorIp, active, now)
  {
    hide JoinExisting, Shape;
    ShapeOfNamed(m, id, now);
  }

  lemma JoinReportsFirstFault(m: Manager, id: ChannelId, s: SocketId, role: ClientType, offer: KeyOffer,
                              creatorIp: Option<Ip>, active: set<SocketId>, now: nat)
    requires m.RefsOk() && Shape(m, now)
    ensures ReportsFirst(m, id, s, role, offer, creatorIp, active, now)
  {
    hide Shape, ReportsFirst;
    if Tombstone(m, id) {
      TombstoneReportsFirst(m, id, s, role, offer, creatorIp, active, now);
    } else if id in m.channels {
      KnownReportsFirst(m, id, s, role, offer, creatorIp, active, now);
    } else {
      UnknownReportsFirst(m, id, s, role, offer, creatorIp, active, now);
    }
  }

  /** A join is refused with an error exactly when that is the first fault it has. */
  lemma JoinRefusedIff(m: Manager, id: ChannelId, s: SocketId, role: ClientType, offer: KeyOffer,
                       creatorIp: Option<Ip>, active: set<SocketId>, now: nat, error: JoinError)
    requires m.RefsOk() && Shape(m, now)
    ensures Join(m, id, s, role, offer, creatorIp, active, now).1 == Refused(error) <==>
              && Fault(m, id, s, role, offer, creatorIp, active, error)
              && forall other :: Fault(m, id, s, role, offer, creatorIp, active, other) ==> Rank(error) <= Rank(other)
  {
    JoinReportsFirstFault(m, id, s, role, offer, creatorIp, active, now);
    var first := FirstFault(m, id, s, role, offer, creatorIp, active);
    hide Join, Fault, Shape, FirstFault;
    if first.Some? {
      assert Fault(m, id, s, role, offer, creatorIp, active, first.value);
    }
  }

  /** A join without fault meets a tombstone or is seated; with one it does neither. */
  lemma JoinSucceedsIff(m: Manager, id: ChannelId, s: SocketId, role: ClientType, offer: KeyOffer,
                        creatorIp: Option<Ip>, active: set<SocketId>, now: nat)
    requires m.RefsOk() && Shape(m, now)
    ensures var result := Join(m, id, s, role, offer, creatorIp, active, now).1;
            && (result.Joined? && !result.terminated <==> Admits(m, id, s, role, offer, creatorIp, active))
            && (result.Joined? && result.terminated <==>
                  Tombstone(m, id) && forall error :: !Fault(m, id, s, role, offer, creatorIp, active, error))
  {
    JoinReportsFirstFault(m, id, s, role, offer, creatorIp, active, now);
    var first := FirstFault(m, id, s, role, offer, creatorIp, active);
    hide Join, Fault, Shape, FirstFault, Tombstone;
    if first.Some? {
      assert Fault(m, id, s, role, offer, creatorIp, active, first.value);
    }
  }

  // ---------- routeMessage ----------

  /** What becomes of the channel when a message is accepted: written at once, or queued behind an eviction. */
  ghost predicate Takes(c: Chan, d: Chan, msg: Message, direct: bool) {
    && d.accepted == c.accepted + [msg]
    && d.participants == c.participants
    && if direct then d.buffer == c.buffer && d.settled == c.settled + [Settled(msg, Handed)]
       else if |c.buffer| < MAX_BUFFERED_MESSAGES then d.buffer == c.buffer + [msg] && d.settled == c.settled
       else d.buffer == c.buffer[1..] + [msg] && d.settled == c.settled + [Settled(c.buffer[0], Evicted)]
  }

  lemma DirectTakes(m: Manager, ref: nat, s: SocketId, target: SocketId, msg: Message)
    requires ref < |m.store|
    ensures var (after, result) := RouteDirect(m, ref, s, target, msg);
            ref < |after.store| && Takes(m.store[ref], after.store[ref], msg, true) && result.target == Some(target)
  {
    assert Tag([msg], Handed) == [Settled(msg, Handed)];
  }

  lemma BufferedTakes(m: Manager, ref: nat, s: SocketId, target: Option<SocketId>, msg: Message)
    requires ref < |m.store|
    ensures var (after, result) := RouteBuffered(m, ref, s, target, msg);
            result.error.None? ==>
              ref < |after.store| && Takes(m.store[ref], after.store[ref], msg, false) && result.target.None?
  {
    var c := m.store[ref];
    if BudgetError(m, ref, msg.size, msg.sourceIp).None? && |c.buffer| >= MAX_BUFFERED_MESSAGES {
      assert Without(c.buffer, 0) == c.buffer[1..];
      assert Tag([c.buffer[0]], Evicted) == [Settled(c.buffer[0], Evicted)];
    }
  }

  /** An accepted message joins the history once, addressed to the other role, and is handed over or queued. */
  lemma RouteAnswers(m: Manager, id: ChannelId, s: SocketId, data: Payload, ip: Ip, receivable: set<SocketId>, now: nat)
    requires m.RefsOk() && Route(m, id, s, data, ip, receivable, now).1.error.None?
    ensures var (after, result) := Route(m, id, s, data, ip, receivable, now);
            && id in m.channels && s in m.At(id).participants && data.bytes.Some?
            && id in after.channels
            && result.buffered == result.target.None?
            && Takes(m.At(id), after.At(id),
                     Message(data, Other(m.At(id).participants[s]), now, data.bytes.value, ip), result.target.Some?)
  {
    hide RouteDirect, RouteBuffered, FitsDirectly, Takes;
    var ref, c := m.channels[id], m.At(id);
    var touched := m.Put(ref, c.(lastActivity := now));
    var msg := Message(data, Other(c.participants[s]), now, data.bytes.value, ip);
    var target := Counterpart(c.participants, s);
    RouteEffect(m, id, s, data, ip, receivable, now);
    if target.Some? {
      DirectTakes(touched, ref, s, target.value, msg);
      TouchedTakes(c, now, RouteDirect(touched, ref, s, target.value, msg).0.store[ref], msg, true);
      DirectFlags(touched, ref, s, target.value, msg);
    }
    BufferedTakes(touched, ref, s, target, msg);
    BufferedFlags(touched, ref, s, target, msg);
    if RouteBuffered(touched, ref, s, target, msg).1.error.None? {
      TouchedTakes(c, now, RouteBuffered(touched, ref, s, target, msg).0.store[ref], msg, false);
    }
  }

  lemma DirectFlags(m: Manager, ref: nat, s: SocketId, target: SocketId, msg: Message)
    requires ref < |m.store|
    ensures !RouteDirect(m, ref, s, target, msg).1.buffered
  {
  }

  lemma BufferedFlags(m: Manager, ref: nat, s: SocketId, target: Option<SocketId>, msg: Message)
    requires ref < |m.store|
    ensures var result := RouteBuffered(m, ref, s, target, msg).1; result.buffered == result.error.None?
  {
  }

  lemma TouchedTakes(c: Chan, now: nat, d: Chan, msg: Message, direct: bool)
    ensures Takes(c.(lastActivity := now), d, msg, direct) ==> Takes(c, d, msg, direct)
    ensures Takes(c, d, msg, direct) ==> Takes(c.(lastActivity := now), d, msg, direct)
  {
  }

  lemma DispatchWritesIff(m: Manager, ref: nat, s: SocketId, msg: Message, receivable: set<SocketId>)
    requires ref < |m.store|
    ensures var target := Counterpart(m.store[ref].participants, s);
            && (Dispatch(m, ref, s, msg, receivable).1.target.Some? <==>
                  && target.Some? && target.value in receivable
                  && FitsDirectly(m, ref, target.value, msg.size, msg.sourceIp))
            && (Dispatch(m, ref, s, msg, receivable).1.target.Some? ==>
                  Dispatch(m, ref, s, msg, receivable).1.target == target)
  {
  }

  /** A valid, fresh, serialisable message whose counterparty can take it now, without a write outstanding and within
      every budget. */
  ghost predicate WritesNow(m: Manager, id: ChannelId, s: SocketId, data: Payload, ip: Ip, receivable: set<SocketId>)
    requires m.RefsOk()
  {
    && SeatedAt(m, id, s) && !m.At(id).terminated
    && data.clientType == m.At(id).participants[s]
    && !Replays(m.At(id), s, data.seqNo)
    && data.bytes.Some?
    && (exists t: SocketId :: SeatedAt(m, id, t) && t != s && t in receivable && t !in m.deliveries)
    && Fits(m, m.channels[id], data.bytes.value, ip)
  }

  /** A message is written at once exactly when it may be, and then to the only other participant. */
  lemma WritesDirectlyIff(m: Manager, id: ChannelId, s: SocketId, data: Payload, ip: Ip, receivable: set<SocketId>,
                          now: nat)
    requires m.RefsOk() && Shape(m, now)
    ensures var result := Route(m, id, s, data, ip, receivable, now).1;
            && (result.target.Some? <==> WritesNow(m, id, s, data, ip, receivable))
            && (result.target.Some? ==>
                  && SeatedAt(m, id, s)
                  && result.target.value in m.At(id).participants
                  && m.At(id).participants[result.target.value] == Other(data.clientType))
  {
    hide Dispatch;
    if SeatedAt(m, id, s) && data.bytes.Some? {
      var ref, c := m.channels[id], m.At(id);
      var touched := m.Put(ref, c.(lastActivity := now));
      var msg := Message(data, Other(c.participants[s]), now, data.bytes.value, ip);
      DispatchWritesIff(touched, ref, s, msg, receivable);
      assert ChanOk(c, now);
      CounterpartTakesOtherRole(c.participants, s);
      assert forall t: SocketId :: SeatedAt(m, id, t) <==> t in c.participants;
    }
  }

  /** The state in which a queued message must fit: after the eviction its arrival would cause. */
  function MadeRoom(m: Manager, ref: nat): Manager
    requires ref < |m.store|
  {
    if |m.store[ref].buffer| >= MAX_BUFFERED_MESSAGES then WithdrawAt(m, ref, 0, Evicted) else m
  }

  /** A message is refused for a budget exactly when it would not fit after that eviction. */
  lemma BudgetRefusalIsExact(m: Manager, ref: nat, s: SocketId, target: Option<SocketId>, msg: Message, now: nat)
    requires Body(m, now) && ref < |m.store|
    ensures RouteBuffered(m, ref, s, target, msg).1.error.None? <==> Fits(MadeRoom(m, ref), ref, msg.size, msg.sourceIp)
  {
    if |m.store[ref].buffer| >= MAX_BUFFERED_MESSAGES {
      EvictionMakesRoom(m, ref, msg.size, msg.sourceIp, now);
    }
    hide Body;
  }

  // ---------- advanceDirectDelivery ----------

  /** A promotion writes the oldest message waiting for the socket's role and charges its bytes to the reservation. */
  lemma AdvanceAnswers(m: Manager, s: SocketId)
    requires m.RefsOk() && Advance(m, s).1.Some?
    ensures var (after, next) := Advance(m, s);
            && s in m.deliveries && s in after.deliveries
            && var ref := m.deliveries[s].channel;
               var c := m.store[ref];
               && ref < |after.store| && s in c.participants
               && exists i, msg :: && 0 <= i < |c.buffer| && c.buffer[i] == msg
                                   && msg.target == c.participants[s]
                                   && (forall j :: 0 <= j < i ==> c.buffer[j].target != c.participants[s])
                                   && next.value == msg.data
                                   && after.store[ref].buffer == Without(c.buffer, i)
                                   && after.store[ref].settled == c.settled + [Settled(msg, Promoted)]
                                   && after.deliveries[s] == Reservation(ref, msg.sourceIp, msg.size)
  {
    var ref := m.deliveries[s].channel;
    var c := m.store[ref];
    var i := FirstFor(c.buffer, c.participants[s]);
    ReleaseLeaves(m, s, ref);
    PromoteLeaves(Release(m, s), ref, s, i);
    hide Release, Promote;
    assert c.buffer[i].target == c.participants[s];
  }

  lemma ReleaseLeaves(m: Manager, s: SocketId, ref: nat)
    requires m.RefsOk() && ref < |m.store|
    ensures var c, d := m.store[ref], Release(m, s).store[ref]; d == c.(inflightBytes := d.inflightBytes)
  {
  }

  lemma PromoteLeaves(m: Manager, ref: nat, s: SocketId, i: nat)
    requires ref < |m.store| && i < |m.store[ref].buffer|
    ensures var c, after := m.store[ref], Promote(m, ref, s, i);
            var msg := c.buffer[i];
            && ref < |after.store| && s in after.deliveries
            && after.store[ref].buffer == Without(c.buffer, i)
            && after.store[ref].settled == c.settled + [Settled(msg, Promoted)]
            && after.deliveries[s] == Reservation(ref, msg.sourceIp, msg.size)
  {
    assert Tag([m.store[ref].buffer[i]], Promoted) == [Settled(m.store[ref].buffer[i], Promoted)];
  }

  // ---------- leave ----------

  /** Leaving reports the role the socket held, exactly when it held one, takes nothing else away and renews the
      channel's lease. */
  lemma LeaveAnswers(m: Manager, s: SocketId, id: ChannelId, now: nat)
    requires m.RefsOk()
    ensures var (after, role) := Leave(m, s, id, now);
            && (role.Some? <==> SeatedAt(m, id, s))
            && (role.Some? ==>
                  var c := m.At(id);
                  && role.value == c.participants[s]
                  && after == m.(store := after.store) && |after.store| == |m.store|
                  && after.At(id) == c.(participants := c.participants - {s}, seqNumbers := c.seqNumbers - {s},
                                        lastActivity := now)
                  && (forall i :: 0 <= i < |m.store| && i != m.channels[id] ==> after.store[i] == m.store[i]))
            && (role.None? ==> after == m)
  {
  }
}
