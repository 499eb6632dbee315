/**
 The channel manager as it runs. Every method moves the abstract value `View()`
 exactly as the transition of the same name in `ManagerSpec`, and keeps every
 invariant of a sound manager.
 */
module ChannelManagers {
  import opened Options
  import opened RelayTypes
  import opened Ledgers
  import opened ManagerSpec
  import opened ManagerSafety
  import opened ManagerOps
  import opened ManagerRouting
  import opened Channels

  class ChannelManager {
    const limits: Limits
    var channels: map<ChannelId, Channel>
    var terminatedOrder: seq<ChannelId>
    var totalBufferedBytes: int
    var totalDirectInflightBytes: int
    var directDeliveries: map<SocketId, Reservation<Channel>>
    var bufferedBytesByIp: map<Ip, int>
    /** Every channel object ever made, in order; some are only held by a reservation, some by nothing. */
    ghost var made: seq<Channel>
    ghost var clock: nat

    ghost predicate Known(c: Channel)
      reads `made
    {
      c.ref < |made| && made[c.ref] == c
    }

    ghost predicate Wired()
      reads `made, `channels, `directDeliveries
    {
      && (forall i :: 0 <= i < |made| ==> made[i].ref == i)
      && (forall id :: id in channels ==> Known(channels[id]))
      && (forall s :: s in directDeliveries ==> Known(directDeliveries[s].channel))
    }

    ghost function Sums(): Ledger
      reads `totalBufferedBytes, `totalDirectInflightBytes, `bufferedBytesByIp
    {
      Ledger(totalBufferedBytes, totalDirectInflightBytes, bufferedBytesByIp)
    }

    ghost function Names(): (names: map<ChannelId, nat>)
      reads `channels
    {
      map id | id in channels :: channels[id].ref
    }

    ghost function Deliveries(): map<SocketId, Reservation<nat>>
      reads `directDeliveries
    {
      map s | s in directDeliveries :: Charge(directDeliveries[s])
    }

    ghost function View(): (m: Manager)
      requires Wired()
      reads `made, made, `channels, `terminatedOrder, `directDeliveries
      reads `totalBufferedBytes, `totalDirectInflightBytes, `bufferedBytesByIp
      ensures m.RefsOk()
    {
      Manager(limits, Views(made), Names(), terminatedOrder, Sums(), Deliveries())
    }

    ghost predicate Valid()
      reads this, made
    {
      Wired() && Sound(View(), clock)
    }

    constructor (limits: Limits)
      ensures Valid() && View() == EmptyManager(limits) && made == [] && clock == 0
    {
      this.limits := limits;
      channels := map[];
      terminatedOrder := [];
      totalBufferedBytes := 0;
      totalDirectInflightBytes := 0;
      directDeliveries := map[];
      bufferedBytesByIp := map[];
      made := [];
      clock := 0;
      new;
      EmptySound(limits, 0);
      assert Views(made) == [];
    }

    /** When only `c` was written, the view changes at its place, in the ledger and in the reservations. */
    twostate lemma OnlyChanged(c: Channel)
      requires old(Wired()) && Wired() && made == old(made) && Known(c)
      requires channels == old(channels) && terminatedOrder == old(terminatedOrder)
      requires forall o :: o in made && o != c ==> unchanged(o)
      ensures old(View()).RefsOk() && c.ref < |old(View()).store|
      ensures old(View()).store[c.ref] == old(c.View())
      ensures old(View()).ledger == old(Sums()) && old(View()).deliveries == old(Deliveries())
      ensures View() == old(View()).Put(c.ref, c.View()).(ledger := Sums(), deliveries := Deliveries())
    {
      forall i | 0 <= i < |made| && i != c.ref ensures made[i].View() == old(made[i].View()) {
        assert made[i] in made && made[i] != c;
      }
      assert Views(made) == old(Views(made))[c.ref := c.View()];
    }

    // ---------- Byte accounting ----------

    method RetainIpBytes(ip: Ip, size: int)
      modifies `bufferedBytesByIp
      ensures bufferedBytesByIp == RetainIp(old(bufferedBytesByIp), ip, size)
    {
      var held := if ip in bufferedBytesByIp then bufferedBytesByIp[ip] else 0;
      bufferedBytesByIp := bufferedBytesByIp[ip := held + size];
    }

    method ReleaseIpBytes(ip: Ip, size: int)
      modifies `bufferedBytesByIp
      ensures bufferedBytesByIp == ReleaseIp(old(bufferedBytesByIp), ip, size)
    {
      var left := (if ip in bufferedBytesByIp then bufferedBytesByIp[ip] else 0) - size;
      if left > 0 {
        bufferedBytesByIp := bufferedBytesByIp[ip := left];
      } else {
        bufferedBytesByIp := bufferedBytesByIp - {ip};
      }
    }

    method RetainBufferedBytes(c: Channel, msg: Message)
      modifies c`bufferedBytes, `totalBufferedBytes, `bufferedBytesByIp
      ensures c.bufferedBytes == old(c.bufferedBytes) + msg.size
      ensures Sums() == RetainBuffered(old(Sums()), msg.sourceIp, msg.size)
    {
      c.bufferedBytes := c.bufferedBytes + msg.size;
      totalBufferedBytes := totalBufferedBytes + msg.size;
      RetainIpBytes(msg.sourceIp, msg.size);
    }

    method ReleaseBufferedBytes(c: Channel, msg: Message)
      modifies c`bufferedBytes, `totalBufferedBytes, `bufferedBytesByIp
      ensures c.bufferedBytes == Max(0, old(c.bufferedBytes) - msg.size)
      ensures Sums() == ReleaseBuffered(old(Sums()), msg.sourceIp, msg.size)
    {
      c.bufferedBytes := Max(0, c.bufferedBytes - msg.size);
      totalBufferedBytes := Max(0, totalBufferedBytes - msg.size);
      ReleaseIpBytes(msg.sourceIp, msg.size);
    }

    // ---------- Buffers ----------

    /** Split a buffer by a sieve in one pass, releasing the bytes of what it takes. */
    method PartitionBuffer(c: Channel, sieve: Sieve) returns (out: seq<Message>, retained: seq<Message>)
      modifies c`bufferedBytes, `totalBufferedBytes, `bufferedBytesByIp
      ensures out == Pick(c.messageBuffer, sieve, true) && retained == Pick(c.messageBuffer, sieve, false)
      ensures c.bufferedBytes == ClampEach(old(c.bufferedBytes), out)
      ensures Sums() == ReleaseEach(old(Sums()), out)
    {
      hide Pick, ReleaseEach, ClampEach, Sieve.Takes;
      var buffer := c.messageBuffer;
      out, retained := [], [];
      NothingPicked(sieve);
      for i := 0 to |buffer|
        invariant out == Pick(buffer[..i], sieve, true) && retained == Pick(buffer[..i], sieve, false)
        invariant c.bufferedBytes == ClampEach(old(c.bufferedBytes), out)
        invariant Sums() == ReleaseEach(old(Sums()), out)
      {
        assert buffer[..i + 1] == buffer[..i] + [buffer[i]];
        PickSnoc(buffer[..i], buffer[i], sieve, true);
        PickSnoc(buffer[..i], buffer[i], sieve, false);
        if sieve.Takes(buffer[i]) {
          ReleaseSnoc(old(Sums()), old(c.bufferedBytes), out, buffer[i]);
          out := out + [buffer[i]];
          ReleaseBufferedBytes(c, buffer[i]);
        } else {
          retained := retained + [buffer[i]];
        }
      }
      assert buffer[..|buffer|] == buffer;
    }

    lemma NothingPicked(sieve: Sieve)
      ensures Pick([], sieve, true) == [] && Pick([], sieve, false) == []
      ensures forall l :: ReleaseEach(l, []) == l
      ensures forall b :: ClampEach(b, []) == b
    {
    }

    /** Take out of a buffer the messages a sieve picks, keeping both parts in order. */
    method WithdrawMatching(c: Channel, sieve: Sieve, ghost fate: Fate) returns (out: seq<Message>)
      requires Wired() && Known(c)
      modifies c`bufferedBytes, c`messageBuffer, c`settled, `totalBufferedBytes, `bufferedBytesByIp
      ensures View() == WithdrawPicked(old(View()), c.ref, sieve, fate)
      ensures out == Pick(old(c.messageBuffer), sieve, true)
    {
      hide View, Wired, Views;
      var retained;
      out, retained := PartitionBuffer(c, sieve);
      c.messageBuffer := retained;
      c.settled := c.settled + Tag(out, fate);
      OnlyChanged(c);
    }

    /** Drop a whole buffer. */
    method DropBuffer(c: Channel)
      requires Wired() && Known(c)
      modifies c`bufferedBytes, c`messageBuffer, c`settled, `totalBufferedBytes, `bufferedBytesByIp
      ensures View() == Withdraw(old(View()), c.ref, [], old(c.messageBuffer), Dropped)
    {
      hide View, Wired, Views;
      var buffer := c.messageBuffer;
      for i := 0 to |buffer|
        invariant c.bufferedBytes == ClampEach(old(c.bufferedBytes), buffer[..i])
        invariant Sums() == ReleaseEach(old(Sums()), buffer[..i])
        invariant c.messageBuffer == buffer && c.settled == old(c.settled)
      {
        assert buffer[..i + 1][..i] == buffer[..i];
        ReleaseBufferedBytes(c, buffer[i]);
      }
      assert buffer[..|buffer|] == buffer;
      c.messageBuffer := [];
      c.settled := c.settled + Tag(buffer, Dropped);
      OnlyChanged(c);
    }

    /** Take the message at `i` out of a buffer. */
    method WithdrawOne(c: Channel, i: nat, ghost fate: Fate) returns (msg: Message)
      requires Wired() && Known(c) && i < |c.messageBuffer|
      modifies c`bufferedBytes, c`messageBuffer, c`settled, `totalBufferedBytes, `bufferedBytesByIp
      ensures msg == old(c.messageBuffer)[i]
      ensures View() == WithdrawAt(old(View()), c.ref, i, fate)
    {
      hide View, Wired, Views;
      msg := c.messageBuffer[i];
      c.messageBuffer := c.messageBuffer[..i] + c.messageBuffer[i + 1..];
      ReleaseBufferedBytes(c, msg);
      c.settled := c.settled + Tag([msg], fate);
      ReleaseOne(old(Sums()), old(c.bufferedBytes), msg);
      OnlyChanged(c);
    }

    method AppendMessage(c: Channel, msg: Message)
      requires Wired() && Known(c)
      modifies c`bufferedBytes, c`messageBuffer, c`accepted, `totalBufferedBytes, `bufferedBytesByIp
      ensures View() == Append(old(View()), c.ref, msg)
    {
      hide View, Wired, Views;
      c.messageBuffer := c.messageBuffer + [msg];
      RetainBufferedBytes(c, msg);
      c.accepted := c.accepted + [msg];
      OnlyChanged(c);
    }

    // ---------- Reservations ----------

    ghost function Charge(r: Reservation<Channel>): Reservation<nat> {
      Reservation(r.channel.ref, r.sourceIp, r.size)
    }

    twostate lemma DeliveryCleared(s: SocketId)
      requires old(Wired()) && made == old(made) && channels == old(channels)
      requires directDeliveries == old(directDeliveries) - {s}
      ensures Wired() && Deliveries() == old(Deliveries()) - {s}
      ensures s in old(directDeliveries) ==>
                var r := old(directDeliveries)[s];
                && Known(r.channel) && r.channel in made && s in old(Deliveries())
                && old(Deliveries())[s] == Charge(r)
    {
    }

    method ReserveDelivery(s: SocketId, r: Reservation<Channel>)
      requires Wired() && Known(r.channel)
      modifies r.channel`directInflightBytes, `directDeliveries, `totalDirectInflightBytes, `bufferedBytesByIp
      ensures Wired()
      ensures View() == Reserve(old(View()), s, Charge(r))
    {
      hide View;
      directDeliveries := directDeliveries[s := r];
      assert Deliveries() == old(Deliveries())[s := Charge(r)];
      r.channel.directInflightBytes := r.channel.directInflightBytes + r.size;
      totalDirectInflightBytes := totalDirectInflightBytes + r.size;
      RetainIpBytes(r.sourceIp, r.size);
      OnlyChanged(r.channel);
    }

    /** Release the one outstanding write of a socket, on whichever object it holds. */
    method ReleaseDirectDelivery(s: SocketId)
      requires Wired()
      modifies made, `directDeliveries, `totalDirectInflightBytes, `bufferedBytesByIp
      ensures Wired() && View() == Release(old(View()), s)
      ensures directDeliveries == old(directDeliveries) - {s}
    {
      hide View, Wired, Deliveries;
      if s in directDeliveries {
        var r := directDeliveries[s];
        directDeliveries := directDeliveries - {s};
        DeliveryCleared(s);
        r.channel.directInflightBytes := Max(0, r.channel.directInflightBytes - r.size);
        totalDirectInflightBytes := Max(0, totalDirectInflightBytes - r.size);
        ReleaseIpBytes(r.sourceIp, r.size);
        OnlyChanged(r.channel);
      } else {
        NoDelivery(s);
      }
    }

    lemma NoDelivery(s: SocketId)
      requires Wired() && s !in directDeliveries
      ensures Release(View(), s) == View() && directDeliveries - {s} == directDeliveries
    {
    }

    // ---------- Single channel updates ----------

    lemma ViewAt(c: Channel)
      requires Wired() && Known(c)
      ensures c.ref < |View().store| && View().store[c.ref] == c.View()
    {
    }

    method Touch(c: Channel, now: nat)
      requires Wired() && Known(c)
      modifies c`lastActivity
      ensures View() == old(View()).Put(c.ref, old(c.View()).(lastActivity := now))
    {
      hide View;
      c.lastActivity := now;
      OnlyChanged(c);
    }

    method Unseat(c: Channel, s: SocketId)
      requires Wired() && Known(c)
      modifies c`participants, c`seqNumbers
      ensures View() == RemoveParticipant(old(View()), c.ref, s)
    {
      hide View;
      c.participants := c.participants - {s};
      c.seqNumbers := c.seqNumbers - {s};
      OnlyChanged(c);
    }

    method Record(c: Channel, s: SocketId, seqNo: Option<nat>)
      requires Wired() && Known(c)
      modifies c`seqNumbers
      ensures View() == Sequenced(old(View()), c.ref, s, seqNo)
    {
      hide View;
      if seqNo.Some? {
        c.seqNumbers := c.seqNumbers[s := seqNo.value];
        OnlyChanged(c);
      }
    }

    // ---------- join ----------

    ghost predicate LiveFrom(id: ChannelId, ip: Ip)
      requires id in channels
      reads `channels, channels[id]
    {
      !channels[id].terminated && channels[id].creatorIp == Some(ip)
    }

    lemma CreatedByScan(ip: Ip)
      requires Wired()
      ensures CreatedBy(View(), ip) == set id | id in channels && LiveFrom(id, ip)
    {
    }

    /** How many live channels this address created. */
    method CountLiveChannelsCreatedBy(ip: Ip) returns (count: nat)
      requires Wired()
      ensures count == |CreatedBy(View(), ip)|
    {
      CreatedByScan(ip);
      hide View, Wired;
      var rest := channels.Keys;
      ghost var seen: set<ChannelId> := {};
      count := 0;
      while rest != {}
        invariant rest <= channels.Keys && count == |seen|
        invariant seen == set id | id in channels && LiveFrom(id, ip) && id !in rest
      {
        var id :| id in rest;
        if !channels[id].terminated && channels[id].creatorIp == Some(ip) {
          count := count + 1;
          seen := seen + {id};
        }
        rest := rest - {id};
      }
      assert seen == set id | id in channels && LiveFrom(id, ip);
    }

    twostate lemma GrownViews(new c: Channel)
      requires made == old(made) + [c]
      requires forall o :: o in old(made) ==> unchanged(o)
      ensures Views(made) == old(Views(made)) + [c.View()]
    {
      forall i | 0 <= i < |old(made)| ensures made[i].View() == old(made[i].View()) {
        assert made[i] == old(made)[i] && made[i] in old(made);
      }
    }

    twostate lemma GrownWired(new id: ChannelId, new c: Channel)
      requires old(Wired()) && made == old(made) + [c] && c.ref == |old(made)|
      requires channels == old(channels)[id := c] && directDeliveries == old(directDeliveries)
      ensures Wired() && Known(c)
      ensures Names() == old(Names())[id := |old(made)|] && Deliveries() == old(Deliveries())
    {
      assert forall i :: 0 <= i < |old(made)| ==> made[i] == old(made)[i];
    }

    twostate lemma Grown(new id: ChannelId, new c: Channel, new now: nat)
      requires old(Wired()) && made == old(made) + [c] && c.ref == |old(made)|
      requires channels == old(channels)[id := c] && directDeliveries == old(directDeliveries)
      requires terminatedOrder == old(terminatedOrder) && Sums() == old(Sums())
      requires c.View() == FreshChan(c.creatorIp, now)
      requires forall o :: o in old(made) ==> unchanged(o)
      ensures Wired() && Known(c)
      ensures View() == Allocate(old(View()), id, c.creatorIp, now)
    {
      hide Wired, Known, Channel.View, Sums, Names, Deliveries, Views;
      GrownViews(c);
      GrownWired(id, c);
    }

    method Create(id: ChannelId, creatorIp: Option<Ip>, now: nat) returns (c: Channel)
      requires Wired() && id !in channels
      modifies `made, `channels
      ensures Wired() && fresh(c) && made == old(made) + [c] && Known(c)
      ensures View() == Allocate(old(View()), id, creatorIp, now)
      ensures c.participants == map[]
    {
      hide View, Wired;
      c := new Channel(|made|, creatorIp, now);
      made := made + [c];
      channels := channels[id := c];
      Grown(id, c, now);
    }

    method Seat(c: Channel, s: SocketId, role: ClientType, key: Option<Key>, now: nat)
      requires Wired() && Known(c)
      modifies c`publicKey, c`participants, c`lastActivity
      ensures View() == old(View()).Put(c.ref, c.View())
      ensures c.View() == old(c.View()).(
                publicKey := if old(c.publicKey).None? then key else old(c.publicKey),
                participants := old(c.participants)[s := role],
                lastActivity := now)
    {
      hide View;
      if c.publicKey.None? {
        c.publicKey := key;
      }
      c.participants := c.participants[s := role];
      c.lastActivity := now;
      OnlyChanged(c);
    }

    /** Seat a socket and hand it the messages that waited for its role, and the roster. */
    method Admit(c: Channel, s: SocketId, role: ClientType, key: Option<Key>, now: nat) returns (result: JoinResult)
      requires Wired() && Known(c)
      requires RoleUnique(c.participants) && Uncontested(c.participants, s, role)
      modifies c, `totalBufferedBytes, `bufferedBytesByIp
      ensures (View(), result) == ManagerSpec.Admit(old(View()), c.ref, s, role, key, now)
    {
      hide View, Wired, RoleUnique, Uncontested, WithdrawPicked, Pick, Payloads, ManagerSpec.Others;
      ViewAt(c);
      SeatKeepsRoles(c.participants, s, role);
      Seat(c, s, role, key, now);
      var messages := WithdrawMatching(c, ForRole(role), Returned);
      var others := Roster(c.participants, s);
      result := Joined(Payloads(messages), c.publicKey, others, false);
    }

    lemma SeatKeepsRoles(parts: map<SocketId, ClientType>, s: SocketId, role: ClientType)
      requires RoleUnique(parts) && Uncontested(parts, s, role)
      ensures RoleUnique(parts[s := role])
    {
    }

    /** The last checks of a join, once no live rival is left. */
    method AdmitTo(c: Channel, s: SocketId, role: ClientType, key: Option<Key>, now: nat) returns (result: JoinResult)
      requires Wired() && Known(c)
      requires RoleUnique(c.participants) && Uncontested(c.participants, s, role)
      modifies c, `totalBufferedBytes, `bufferedBytesByIp
      ensures (View(), result) == AdmitUnlessFull(old(View()), c.ref, s, role, key, now)
    {
      hide View, Wired, ManagerSpec.Admit;
      ViewAt(c);
      if s !in c.participants && |c.participants| >= MAX_PARTICIPANTS {
        return Refused(ChannelFull);
      }
      if key.Some? && c.publicKey.Some? && c.publicKey != key {
        return Refused(KeyMismatch);
      }
      result := Admit(c, s, role, key, now);
    }

    /** Remove a stale participant together with whatever write it still had outstanding. */
    method Replace(c: Channel, o: SocketId)
      requires Wired() && Known(c)
      modifies made, `directDeliveries, `totalDirectInflightBytes, `bufferedBytesByIp
      ensures Wired()
      ensures View() == Release(RemoveParticipant(old(View()), c.ref, o), o)
      ensures c.participants == old(c.participants) - {o}
    {
      hide View, Wired;
      KnownIsMade(c);
      ViewAt(c);
      Unseat(c, o);
      ViewAt(c);
      ReleaseDirectDelivery(o);
      ViewAt(c);
    }

    lemma KnownIsMade(c: Channel)
      requires Known(c)
      ensures c in made
    {
    }

    method JoinChannel(c: Channel, s: SocketId, role: ClientType, key: Option<Key>, active: set<SocketId>, now: nat)
      returns (result: JoinResult)
      requires Wired() && Known(c) && RoleUnique(c.participants)
      modifies made, `directDeliveries, `totalBufferedBytes, `totalDirectInflightBytes, `bufferedBytesByIp
      ensures Wired()
      ensures (View(), result) == JoinExisting(old(View()), c.ref, s, role, key, active, now)
    {
      hide View, Wired, AdmitUnlessFull, Release, RemoveParticipant;
      KnownIsMade(c);
      ViewAt(c);
      if role.Dapp? && c.publicKey.Some? && key.None? {
        return Refused(KeyRequired);
      }
      if s in c.participants && c.participants[s] != role {
        return Refused(RoleChange);
      }
      var rival := FindRival(c.participants, s, role);
      if rival.Some? {
        if rival.value in active {
          return Refused(AlreadyConnected);
        }
        Replace(c, rival.value);
      }
      result := AdmitTo(c, s, role, key, now);
    }

    lemma ViewFacts()
      requires Wired()
      ensures View().limits == limits && View().ledger == Sums() && View().terminatedOrder == terminatedOrder
      ensures View().deliveries.Keys == directDeliveries.Keys
      ensures View().channels.Keys == channels.Keys
    {
    }

    lemma ViewOf(id: ChannelId)
      requires Wired()
      ensures id in channels <==> id in View().channels
      ensures id in channels ==>
                && Known(channels[id]) && channels[id] in made
                && View().channels[id] == channels[id].ref
                && View().At(id) == channels[id].View()
    {
    }

    lemma SoundChannel(c: Channel, now: nat)
      requires Wired() && Known(c) && Sound(View(), now)
      ensures RoleUnique(c.participants)
    {
      ViewAt(c);
      BodyFacts(View(), c.ref, now);
    }

    /** The channel a join is for, made now unless it exists; `None` when its creator is at the cap. */
    method FindOrCreate(id: ChannelId, creatorIp: Option<Ip>, now: nat) returns (c: Option<Channel>)
      requires Wired()
      modifies `made, `channels
      ensures Wired() && old(made) <= made && forall x :: x in made && x !in old(made) ==> fresh(x)
      ensures id in old(channels) ==> View() == old(View()) && c == Some(old(channels)[id])
      ensures id !in old(channels) ==>
                if AtChannelCap(old(View()), creatorIp) then View() == old(View()) && c == None
                else View() == Allocate(old(View()), id, creatorIp, now)
                     && c.Some? && Known(c.value) && c.value.ref == |old(View()).store| && c.value.participants == map[]
    {
      ViewFacts();
      ViewOf(id);
      if id in channels {
        return Some(channels[id]);
      }
      if creatorIp.Some? && limits.maxChannelsPerIp.Some? {
        var live := CountLiveChannelsCreatedBy(creatorIp.value);
        if live >= limits.maxChannelsPerIp.value {
          return None;
        }
      }
      hide View, Wired;
      var created := Create(id, creatorIp, now);
      c := Some(created);
    }

    method JoinNow(id: ChannelId, s: SocketId, role: ClientType, offer: KeyOffer, creatorIp: Option<Ip>,
                   active: set<SocketId>, now: nat)
      returns (result: JoinResult)
      requires Wired() && Sound(View(), now)
      modifies this, made
      ensures Wired() && clock == old(clock)
      ensures (View(), result) == ManagerSpec.Join(old(View()), id, s, role, offer, creatorIp, active, now)
      ensures forall c :: c in made && c !in old(made) ==> fresh(c)
    {
      hide View, Wired, Sound, JoinExisting;
      ViewOf(id);
      if role.Dapp? && offer.Malformed? {
        return Refused(BadKey(offer.error));
      }
      if id in channels && channels[id].terminated {
        return Joined([], None, [], true);
      }
      if id in channels {
        SoundChannel(channels[id], now);
      }
      var c := FindOrCreate(id, creatorIp, now);
      if c.None? {
        return Refused(TooManyChannels);
      }
      assert forall i :: 0 <= i < |made| ==> made[i] in old(made) || fresh(made[i]);
      result := JoinChannel(c.value, s, role, CanonicalKey(role, offer), active, now);
    }

    method Join(id: ChannelId, s: SocketId, role: ClientType, offer: KeyOffer, creatorIp: Option<Ip>,
                active: set<SocketId>, now: nat)
      returns (result: JoinResult)
      requires Valid() && clock <= now
      modifies this, made
      ensures Valid() && clock == now
      ensures (View(), result) == ManagerSpec.Join(old(View()), id, s, role, offer, creatorIp, active, now)
      ensures forall c :: c in made && c !in old(made) ==> fresh(c)
    {
      hide View, Wired, Sound, ManagerSpec.Join;
      SoundLater(View(), clock, now);
      JoinKeepsSound(View(), id, s, role, offer, creatorIp, active, now);
      result := JoinNow(id, s, role, offer, creatorIp, active, now);
      clock := now;
    }

    // ---------- close and leave ----------

    method TerminateChannel(c: Channel, now: nat)
      requires Wired() && Known(c)
      modifies c, `totalBufferedBytes, `bufferedBytesByIp
      ensures View() == Terminate(old(View()), c.ref, now)
    {
      hide View, Wired;
      ViewAt(c);
      DropBuffer(c);
      ViewAt(c);
      label dropped:
      c.terminated := true;
      c.terminatedAt := now;
      c.lastActivity := now;
      c.participants := map[];
      c.seqNumbers := map[];
      c.publicKey := None;
      OnlyChanged@dropped(c);
    }

    twostate lemma Unmapped(id: ChannelId)
      requires old(Wired()) && made == old(made) && directDeliveries == old(directDeliveries) && Sums() == old(Sums())
      requires terminatedOrder == old(terminatedOrder) && channels == old(channels) - {id}
      requires forall o :: o in made ==> unchanged(o)
      ensures Wired() && View() == Unmap(old(View()), id)
    {
      assert Names() == old(Names()) - {id};
      forall i | 0 <= i < |made| ensures made[i].View() == old(made[i].View()) {
        assert made[i] in made;
      }
      assert Views(made) == old(Views(made));
    }

    method DeleteChannel(id: ChannelId)
      requires Wired()
      modifies `channels
      ensures Wired() && View() == Unmap(old(View()), id) && channels == old(channels) - {id}
    {
      hide View, Wired;
      channels := channels - {id};
      Unmapped(id);
    }

    method SetOrder(order: seq<ChannelId>)
      requires Wired()
      modifies `terminatedOrder
      ensures terminatedOrder == order && View() == old(View()).(terminatedOrder := order)
    {
      terminatedOrder := order;
    }

    /** Take the oldest tombstones off the FIFO, and out of the map if they are still there. */
    method EvictExcess()
      requires Wired()
      modifies `terminatedOrder, `channels
      ensures Wired() && View() == EvictTombstones(old(View()))
    {
      hide View, Wired;
      ViewFacts();
      while |terminatedOrder| > MAX_TOMBSTONES
        invariant Wired() && EvictTombstones(View()) == EvictTombstones(old(View()))
        invariant View().terminatedOrder == terminatedOrder
      {
        ViewFacts();
        var oldest := terminatedOrder[0];
        SetOrder(terminatedOrder[1..]);
        ViewOf(oldest);
        if oldest in channels && channels[oldest].terminated {
          DeleteChannel(oldest);
          ViewFacts();
        }
      }
    }

    method CloseNow(id: ChannelId, now: nat) returns (closed: bool)
      requires Wired()
      modifies this, made
      ensures Wired() && clock == old(clock) && made == old(made)
      ensures (View(), closed) == ManagerSpec.Close(old(View()), id, now)
    {
      hide View, Wired, Terminate, EvictTombstones;
      ViewOf(id);
      if id !in channels || channels[id].terminated {
        return false;
      }
      TerminateChannel(channels[id], now);
      ViewFacts();
      SetOrder(terminatedOrder + [id]);
      EvictExcess();
      closed := true;
    }

    method Close(id: ChannelId, now: nat) returns (closed: bool)
      requires Valid() && clock <= now
      modifies this, made
      ensures Valid() && clock == now && made == old(made)
      ensures (View(), closed) == ManagerSpec.Close(old(View()), id, now)
    {
      hide View, Wired, Sound, ManagerSpec.Close;
      SoundLater(View(), clock, now);
      CloseKeepsSound(View(), id, now);
      closed := CloseNow(id, now);
      clock := now;
    }

    method Leave(s: SocketId, id: ChannelId, now: nat) returns (role: Option<ClientType>)
      requires Valid() && clock <= now
      modifies this, made
      ensures Valid() && clock == now && made == old(made)
      ensures (View(), role) == ManagerSpec.Leave(old(View()), s, id, now)
    {
      hide View, Wired, Sound;
      SoundLater(View(), clock, now);
      LeaveKeepsSound(View(), s, id, now);
      ViewOf(id);
      clock := now;
      if id !in channels || s !in channels[id].participants {
        return None;
      }
      var c := channels[id];
      role := Some(c.participants[s]);
      Unseat(c, s);
      ViewAt(c);
      Touch(c, now);
    }

    // ---------- routeMessage ----------

    ghost method Log(c: Channel, msg: Message)
      requires Wired() && Known(c)
      modifies c`accepted, c`settled
      ensures View() == old(View()).Put(c.ref, old(c.View()).(accepted := old(c.accepted) + [msg],
                                                              settled := old(c.settled) + Tag([msg], Handed)))
    {
      hide View;
      c.accepted := c.accepted + [msg];
      c.settled := c.settled + Tag([msg], Handed);
      OnlyChanged(c);
    }

    /** Reserve the counterparty's one live write for this message. */
    method DeliverDirectly(c: Channel, s: SocketId, target: SocketId, msg: Message) returns (result: RouteResult)
      requires Wired() && Known(c)
      modifies c, `directDeliveries, `totalDirectInflightBytes, `bufferedBytesByIp
      ensures Wired()
      ensures (View(), result) == RouteDirect(old(View()), c.ref, s, target, msg)
    {
      hide View, Wired;
      ReserveDelivery(target, Reservation(c, msg.sourceIp, msg.size));
      ViewAt(c);
      Log(c, msg);
      Record(c, s, msg.data.seqNo);
      result := RouteResult(Some(target), None, false, None);
    }

    /** Retain a message for an absent or backpressured counterparty, evicting the oldest over the count cap. */
    method BufferMessage(c: Channel, s: SocketId, target: Option<SocketId>, msg: Message) returns (result: RouteResult)
      requires Wired() && Known(c)
      modifies c, `totalBufferedBytes, `bufferedBytesByIp
      ensures (View(), result) == RouteBuffered(old(View()), c.ref, s, target, msg)
    {
      hide View, Wired;
      ViewAt(c);
      ViewFacts();
      var evicts := |c.messageBuffer| >= MAX_BUFFERED_MESSAGES;
      var oldestSize := if evicts then c.messageBuffer[0].size else 0;
      var sourceOldestSize := if evicts && c.messageBuffer[0].sourceIp == msg.sourceIp then oldestSize else 0;
      var sourceBytes := AtIp(bufferedBytesByIp, msg.sourceIp);
      if c.bufferedBytes + c.directInflightBytes - oldestSize + msg.size > limits.perChannel {
        return Rejected(target, ChannelBudget);
      }
      if sourceBytes - sourceOldestSize + msg.size > limits.perIp {
        return Rejected(target, IpBudget);
      }
      if totalBufferedBytes + totalDirectInflightBytes - oldestSize + msg.size > limits.total {
        return Rejected(target, GlobalBudget);
      }
      Retain(c, s, msg);
      result := RouteResult(None, target, true, None);
    }

    method Retain(c: Channel, s: SocketId, msg: Message)
      requires Wired() && Known(c)
      modifies c, `totalBufferedBytes, `bufferedBytesByIp
      ensures var m := old(View());
              var evicted := if |m.store[c.ref].buffer| >= MAX_BUFFERED_MESSAGES
                             then WithdrawAt(m, c.ref, 0, Evicted) else m;
              View() == Sequenced(Append(evicted, c.ref, msg), c.ref, s, msg.data.seqNo)
    {
      hide View, Wired, Append, WithdrawAt, Sequenced;
      ViewAt(c);
      if |c.messageBuffer| >= MAX_BUFFERED_MESSAGES {
        var _ := WithdrawOne(c, 0, Evicted);
      }
      ViewAt(c);
      AppendMessage(c, msg);
      Record(c, s, msg.data.seqNo);
    }

    method DispatchMessage(c: Channel, s: SocketId, msg: Message, receivable: set<SocketId>)
      returns (result: RouteResult)
      requires Wired() && Known(c) && RoleUnique(c.participants) && s in c.participants
      modifies c, `directDeliveries, `totalBufferedBytes, `totalDirectInflightBytes, `bufferedBytesByIp
      ensures Wired()
      ensures (View(), result) == Dispatch(old(View()), c.ref, s, msg, receivable)
    {
      hide View, Wired, RouteDirect, RouteBuffered;
      ViewAt(c);
      ViewFacts();
      var target := FindCounterpart(c.participants, s);
      if target.Some? && target.value in receivable {
        var sourceBytes := AtIp(bufferedBytesByIp, msg.sourceIp);
        if && target.value !in directDeliveries
           && c.bufferedBytes + c.directInflightBytes + msg.size <= limits.perChannel
           && sourceBytes + msg.size <= limits.perIp
           && totalBufferedBytes + totalDirectInflightBytes + msg.size <= limits.total
        {
          result := DeliverDirectly(c, s, target.value, msg);
          return;
        }
      }
      result := BufferMessage(c, s, target, msg);
    }

    method RouteNow(id: ChannelId, s: SocketId, data: Payload, ip: Ip, receivable: set<SocketId>, now: nat)
      returns (result: RouteResult)
      requires Wired() && Sound(View(), now)
      modifies this, made
      ensures Wired() && clock == old(clock) && made == old(made)
      ensures (View(), result) == Route(old(View()), id, s, data, ip, receivable, now)
    {
      hide View, Wired, Sound, Dispatch;
      ViewOf(id);
      if id !in channels {
        return Rejected(None, ChannelNotFound);
      }
      var c := channels[id];
      if c.terminated {
        return Rejected(None, ChannelTerminated);
      }
      if s !in c.participants {
        return Rejected(None, SenderNotInChannel);
      }
      if data.clientType != c.participants[s] {
        return Rejected(None, WrongClientType);
      }
      SoundChannel(c, now);
      Touch(c, now);
      if data.seqNo.Some? && s in c.seqNumbers && data.seqNo.value <= c.seqNumbers[s] {
        return Rejected(None, Replayed);
      }
      if data.bytes.None? {
        return Rejected(None, NotSerializable);
      }
      var msg := Message(data, Other(c.participants[s]), now, data.bytes.value, ip);
      result := DispatchMessage(c, s, msg, receivable);
    }

    method RouteMessage(id: ChannelId, s: SocketId, data: Payload, ip: Ip, receivable: set<SocketId>, now: nat)
      returns (result: RouteResult)
      requires Valid() && clock <= now
      modifies this, made
      ensures Valid() && clock == now && made == old(made)
      ensures (View(), result) == Route(old(View()), id, s, data, ip, receivable, now)
    {
      hide View, Wired, Sound, Route;
      SoundLater(View(), clock, now);
      RouteKeepsSound(View(), id, s, data, ip, receivable, now);
      result := RouteNow(id, s, data, ip, receivable, now);
      clock := now;
    }

    // ---------- releaseDirectDelivery and advanceDirectDelivery ----------

    method ReleaseDelivery(s: SocketId)
      requires Valid()
      modifies this, made
      ensures Valid() && clock == old(clock) && made == old(made)
      ensures View() == Release(old(View()), s)
    {
      hide View, Wired, Sound, Release;
      ReleaseKeepsSound(View(), s, clock);
      ReleaseDirectDelivery(s);
    }

    /** Move a buffered message into a socket's reservation. */
    method PromoteMessage(c: Channel, s: SocketId, i: nat) returns (data: Payload)
      requires Wired() && Known(c) && i < |c.messageBuffer|
      modifies c, `directDeliveries, `totalBufferedBytes, `totalDirectInflightBytes, `bufferedBytesByIp
      ensures Wired()
      ensures View() == Promote(old(View()), c.ref, s, i) && data == old(c.messageBuffer)[i].data
    {
      hide View, Wired, WithdrawAt, Reserve;
      ViewAt(c);
      var next := WithdrawOne(c, i, Promoted);
      ReserveDelivery(s, Reservation(c, next.sourceIp, next.size));
      data := next.data;
    }

    lemma DeliveryOf(s: SocketId)
      requires Wired()
      ensures s in directDeliveries <==> s in View().deliveries
      ensures s in directDeliveries ==>
                var c := directDeliveries[s].channel;
                && Known(c) && c in made && View().deliveries[s].channel == c.ref && View().store[c.ref] == c.View()
    {
    }

    method AdvanceNow(s: SocketId) returns (next: Option<Payload>)
      requires Wired()
      modifies this, made
      ensures Wired() && clock == old(clock) && made == old(made)
      ensures (View(), next) == Advance(old(View()), s)
    {
      hide View, Wired, Release, Promote;
      DeliveryOf(s);
      if s !in directDeliveries {
        return None;
      }
      var c := directDeliveries[s].channel;
      var buffer, parts, dead := c.messageBuffer, c.participants, c.terminated;
      ReleaseDirectDelivery(s);
      if s !in parts || dead {
        return None;
      }
      var i := FindNext(buffer, parts[s]);
      if i == |buffer| {
        return None;
      }
      ViewAt(c);
      ReleaseKeepsBuffers(old(View()), s, c.ref);
      var data := PromoteMessage(c, s, i);
      next := Some(data);
    }

    lemma ReleaseKeepsBuffers(m: Manager, s: SocketId, ref: nat)
      requires m.RefsOk() && ref < |m.store|
      ensures |Release(m, s).store| == |m.store| && Release(m, s).store[ref].buffer == m.store[ref].buffer
    {
    }

    method AdvanceDirectDelivery(s: SocketId) returns (next: Option<Payload>)
      requires Valid()
      modifies this, made
      ensures Valid() && clock == old(clock) && made == old(made)
      ensures (View(), next) == Advance(old(View()), s)
    {
      hide View, Wired, Sound, Advance;
      AdvanceKeepsSound(View(), s, clock);
      next := AdvanceNow(s);
    }

    // ---------- cleanup ----------

    /** One iteration of the sweep. */
    method SweepChannel(id: ChannelId, now: nat)
      requires Wired() && id in channels
      modifies this, made
      ensures Wired() && clock == old(clock) && made == old(made)
      ensures channels.Keys == old(channels).Keys || channels.Keys == old(channels).Keys - {id}
      ensures View() == SweepOne(old(View()), id, now)
    {
      hide View, Wired, WithdrawPicked;
      ViewOf(id);
      var c := channels[id];
      var _ := WithdrawMatching(c, OlderThan(now), Expired);
      ViewOf(id);
      if c.terminated {
        if now - c.terminatedAt > TOMBSTONE_TTL_MS {
          DeleteChannel(id);
        }
        return;
      }
      if |c.participants| == 0 && now - c.lastActivity > CHANNEL_TTL_MS {
        DeleteChannel(id);
      }
    }

    /** Visits every channel once, in an order of its own. */
    method CleanupNow(now: nat) returns (ghost ids: seq<ChannelId>)
      requires Wired()
      modifies this, made
      ensures Wired() && clock == old(clock) && made == old(made)
      ensures forall id :: id in old(channels) ==> id in ids
      ensures View() == ManagerSpec.Cleanup(old(View()), ids, now)
    {
      hide View, Wired, SweepOne;
      ids := [];
      var rest := channels.Keys;
      while rest != {}
        invariant Wired() && clock == old(clock) && made == old(made)
        invariant rest <= channels.Keys
        invariant forall id :: id in old(channels) ==> id in ids || id in rest
        invariant View() == SweepEach(old(View()), ids, now)
      {
        var id :| id in rest;
        SweepChannel(id, now);
        assert (ids + [id])[..|ids|] == ids;
        ids := ids + [id];
        rest := rest - {id};
      }
      ViewFacts();
      var order := KeepMapped(terminatedOrder, channels, View().channels);
      SetOrder(order);
    }

    method Cleanup(now: nat) returns (ghost ids: seq<ChannelId>)
      requires Valid() && clock <= now
      modifies this, made
      ensures Valid() && clock == now && made == old(made)
      ensures forall id :: id in old(View()).channels ==> id in ids
      ensures View() == ManagerSpec.Cleanup(old(View()), ids, now)
    {
      hide View, Wired, Sound, ManagerSpec.Cleanup;
      SoundLater(View(), clock, now);
      ViewFacts();
      ids := CleanupNow(now);
      CleanupKeepsSound(old(View()), ids, now);
      clock := now;
    }

    // ---------- Queries ----------

    method HasDirectDelivery(s: SocketId) returns (outstanding: bool)
      requires Wired()
      ensures outstanding == (s in View().deliveries)
    {
      outstanding := s in directDeliveries;
    }

    method HasChannel(id: ChannelId) returns (known: bool)
      requires Wired()
      ensures known == (id in View().channels)
    {
      known := id in channels;
    }

    ghost predicate LiveHere(id: ChannelId)
      requires id in channels
      reads `channels, channels[id]
    {
      !channels[id].terminated
    }

    lemma LiveScan()
      requires Wired()
      ensures (set id | id in View().channels && !View().At(id).terminated) == set id | id in channels && LiveHere(id)
    {
    }

    /** The number of channels that are not tombstones. */
    method GetActiveChannelCount() returns (count: nat)
      requires Wired()
      ensures count == |set id | id in View().channels && !View().At(id).terminated|
    {
      LiveScan();
      hide View, Wired;
      var rest := channels.Keys;
      ghost var seen: set<ChannelId> := {};
      count := 0;
      while rest != {}
        invariant rest <= channels.Keys && count == |seen|
        invariant seen == set id | id in channels && LiveHere(id) && id !in rest
      {
        var id :| id in rest;
        if !channels[id].terminated {
          count := count + 1;
          seen := seen + {id};
        }
        rest := rest - {id};
      }
      assert seen == set id | id in channels && LiveHere(id);
    }
  }
}
