/**
 Byte conservation: every ledger equals the sum it stands for. Each primitive
 move of the channel manager keeps it, and says exactly how the ledgers move,
 so no clamped subtraction ever acts.
 */
module Conservation {
  import opened Options
  import opened RelayTypes
  import opened Ledgers
  import opened ManagerSpec

  /** Bytes buffered anywhere, restricted to one source address when `ip` is given. */
  function StoreBytes(cs: seq<Chan>, ip: Option<Ip>): nat {
    if cs == [] then 0 else StoreBytes(cs[..|cs| - 1], ip) + Bytes(cs[|cs| - 1].buffer, ip)
  }

  lemma {:induction false} StoreBytesUpdate(cs: seq<Chan>, i: nat, c: Chan, ip: Option<Ip>)
    requires i < |cs|
    ensures StoreBytes(cs[i := c], ip) == StoreBytes(cs, ip) - Bytes(cs[i].buffer, ip) + Bytes(c.buffer, ip)
  {
    var k := |cs| - 1;
    if i < k {
      StoreBytesUpdate(cs[..k], i, c, ip);
      assert cs[i := c][..k] == cs[..k][i := c];
    } else {
      assert cs[i := c][..k] == cs[..k];
    }
  }

  lemma {:induction false} StoreBytesCovers(cs: seq<Chan>, i: nat, ip: Option<Ip>)
    requires i < |cs|
    ensures Bytes(cs[i].buffer, ip) <= StoreBytes(cs, ip)
  {
    var k := |cs| - 1;
    if i < k {
      StoreBytesCovers(cs[..k], i, ip);
    }
  }

  ghost predicate ChannelsConserved(m: Manager) {
    forall i :: 0 <= i < |m.store| ==>
      && m.store[i].bufferedBytes == Bytes(m.store[i].buffer, None)
      && m.store[i].inflightBytes == Reserved(m.deliveries, OnChannel(i))
  }

  ghost predicate TotalsConserved(m: Manager) {
    && m.ledger.buffered == StoreBytes(m.store, None)
    && m.ledger.inflight == Reserved(m.deliveries, Everything)
  }

  ghost predicate IpBalanced(m: Manager, ip: Ip) {
    AtIp(m.ledger.byIp, ip) == StoreBytes(m.store, Some(ip)) + Reserved(m.deliveries, FromIp(ip))
  }

  ghost predicate IpsConserved(m: Manager) {
    && PositiveIps(m.ledger.byIp)
    && forall ip :: IpBalanced(m, ip)
  }

  ghost predicate Conserved(m: Manager) {
    && ChannelsConserved(m)
    && TotalsConserved(m)
    && IpsConserved(m)
  }

  /** An address has a ledger entry exactly when it is charged for at least one byte. */
  lemma IpEntryIffCharged(m: Manager, ip: Ip)
    requires Conserved(m)
    ensures ip in m.ledger.byIp <==> StoreBytes(m.store, Some(ip)) + Reserved(m.deliveries, FromIp(ip)) > 0
  {
    assert IpBalanced(m, ip);
  }

  lemma PutConserves(m: Manager, ref: nat, c: Chan)
    requires ref < |m.store| && Conserved(m)
    requires c.buffer == m.store[ref].buffer
    requires c.bufferedBytes == m.store[ref].bufferedBytes && c.inflightBytes == m.store[ref].inflightBytes
    ensures Conserved(m.Put(ref, c))
  {
    StoreBytesUpdate(m.store, ref, c, None);
    forall ip ensures IpBalanced(m.Put(ref, c), ip) {
      assert IpBalanced(m, ip);
      StoreBytesUpdate(m.store, ref, c, Some(ip));
    }
  }

  lemma AllocateConserves(m: Manager, id: ChannelId, creatorIp: Option<Ip>, now: nat)
    requires m.RefsOk() && Conserved(m)
    ensures Conserved(Allocate(m, id, creatorIp, now))
  {
    var after := Allocate(m, id, creatorIp, now);
    assert after.store[..|after.store| - 1] == m.store;
    ReservedNowhere(m.deliveries, OnChannel(|m.store|));
    forall ip ensures IpBalanced(after, ip) {
      assert IpBalanced(m, ip);
    }
  }

  lemma ReserveConserves(m: Manager, s: SocketId, r: Reservation<nat>)
    requires r.channel < |m.store| && s !in m.deliveries && Conserved(m)
    ensures Conserved(Reserve(m, s, r))
  {
    var after := Reserve(m, s, r);
    ReservedWith(m.deliveries, s, r, Everything);
    StoreBytesUpdate(m.store, r.channel, after.store[r.channel], None);
    ReserveConservesChannels(m, s, r);
    ReserveConservesIps(m, s, r);
    hide ChannelsConserved, IpsConserved;
  }

  lemma ReserveConservesChannels(m: Manager, s: SocketId, r: Reservation<nat>)
    requires r.channel < |m.store| && s !in m.deliveries && ChannelsConserved(m)
    ensures ChannelsConserved(Reserve(m, s, r))
  {
    forall i | 0 <= i < |m.store| { ReservedWith(m.deliveries, s, r, OnChannel(i)); }
  }

  lemma ReserveConservesIps(m: Manager, s: SocketId, r: Reservation<nat>)
    requires r.channel < |m.store| && s !in m.deliveries && IpsConserved(m)
    ensures IpsConserved(Reserve(m, s, r))
  {
    var after := Reserve(m, s, r);
    assert IpBalanced(m, r.sourceIp);
    forall ip ensures IpBalanced(after, ip) {
      assert IpBalanced(m, ip);
      ReservedWith(m.deliveries, s, r, FromIp(ip));
      StoreBytesUpdate(m.store, r.channel, after.store[r.channel], Some(ip));
    }
  }

  lemma ReleaseConservesChannels(m: Manager, s: SocketId)
    requires m.RefsOk() && ChannelsConserved(m) && s in m.deliveries
    ensures ChannelsConserved(Release(m, s))
    ensures var r := m.deliveries[s];
            Release(m, s).store[r.channel].inflightBytes == m.store[r.channel].inflightBytes - r.size
  {
    var r, after := m.deliveries[s], Release(m, s);
    ReservedWithout(m.deliveries, s, OnChannel(r.channel));
    forall i | 0 <= i < |m.store|
      ensures after.store[i].inflightBytes == Reserved(after.deliveries, OnChannel(i))
    {
      ReservedWithout(m.deliveries, s, OnChannel(i));
    }
  }

  lemma ReleaseConservesIps(m: Manager, s: SocketId)
    requires m.RefsOk() && IpsConserved(m) && s in m.deliveries
    ensures IpsConserved(Release(m, s))
    ensures forall ip ::
              AtIp(Release(m, s).ledger.byIp, ip) == AtIp(m.ledger.byIp, ip) - Share(m.deliveries[s], FromIp(ip))
  {
    var r, after := m.deliveries[s], Release(m, s);
    assert IpBalanced(m, r.sourceIp);
    ReservedWithout(m.deliveries, s, FromIp(r.sourceIp));
    forall ip ensures IpBalanced(after, ip) {
      assert IpBalanced(m, ip);
      ReservedWithout(m.deliveries, s, FromIp(ip));
      StoreBytesUpdate(m.store, r.channel, after.store[r.channel], Some(ip));
    }
  }

  /** A release subtracts the reservation exactly. */
  lemma ReleaseConserves(m: Manager, s: SocketId)
    requires m.RefsOk() && Conserved(m) && s in m.deliveries
    ensures Conserved(Release(m, s))
    ensures var r, after := m.deliveries[s], Release(m, s);
            && after.store[r.channel].inflightBytes == m.store[r.channel].inflightBytes - r.size
            && after.ledger.inflight == m.ledger.inflight - r.size
            && (forall ip :: AtIp(after.ledger.byIp, ip) == AtIp(m.ledger.byIp, ip) - Share(r, FromIp(ip)))
  {
    var r, after := m.deliveries[s], Release(m, s);
    ReleaseConservesChannels(m, s);
    ReleaseConservesIps(m, s);
    ReservedWithout(m.deliveries, s, Everything);
    StoreBytesUpdate(m.store, r.channel, after.store[r.channel], None);
  }

  /** Taking messages out of a buffer subtracts exactly their bytes from every ledger. */
  lemma WithdrawConserves(m: Manager, ref: nat, keep: seq<Message>, out: seq<Message>, fate: Fate)
    requires ref < |m.store| && Conserved(m)
    requires multiset(m.store[ref].buffer) == multiset(keep) + multiset(out)
    ensures Conserved(Withdraw(m, ref, keep, out, fate))
    ensures var after := Withdraw(m, ref, keep, out, fate);
            && after.store[ref].bufferedBytes == m.store[ref].bufferedBytes - Bytes(out, None)
            && after.ledger.buffered == m.ledger.buffered - Bytes(out, None)
            && after.ledger.inflight == m.ledger.inflight
            && (forall ip :: AtIp(after.ledger.byIp, ip) == AtIp(m.ledger.byIp, ip) - Bytes(out, Some(ip)))
  {
    var c, after := m.store[ref], Withdraw(m, ref, keep, out, fate);
    BytesSplit(c.buffer, keep, out, None);
    StoreBytesCovers(m.store, ref, None);
    forall ip ensures Bytes(out, Some(ip)) <= AtIp(m.ledger.byIp, ip) {
      assert IpBalanced(m, ip);
      BytesSplit(c.buffer, keep, out, Some(ip));
      StoreBytesCovers(m.store, ref, Some(ip));
    }
    ReleaseEachExact(m.ledger, out);
    ClampEachExact(c.bufferedBytes, out);
    StoreBytesUpdate(m.store, ref, after.store[ref], None);
    forall ip ensures IpBalanced(after, ip) {
      assert IpBalanced(m, ip);
      BytesSplit(c.buffer, keep, out, Some(ip));
      StoreBytesUpdate(m.store, ref, after.store[ref], Some(ip));
    }
  }

  lemma AppendConserves(m: Manager, ref: nat, msg: Message)
    requires ref < |m.store| && Conserved(m)
    ensures Conserved(Append(m, ref, msg))
  {
    var c, after := m.store[ref], Append(m, ref, msg);
    assert after.store[ref].buffer[..|c.buffer|] == c.buffer;
    StoreBytesUpdate(m.store, ref, after.store[ref], None);
    forall ip ensures IpBalanced(after, ip) {
      assert IpBalanced(m, ip);
      StoreBytesUpdate(m.store, ref, after.store[ref], Some(ip));
    }
  }
}
