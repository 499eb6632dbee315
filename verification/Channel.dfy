/**
 A channel object as it runs, updated in place and shared between the manager's
 map and the reservations that point at it, and the scans over its participants.
 */
module Channels {
  import opened Options
  import opened RelayTypes
  import opened ManagerSpec
  import opened ManagerSafety

  class Channel {
    /** This object's place in the order of creation, by which the abstract state names it. */
    ghost const ref: nat
    const creatorIp: Option<Ip>
    var participants: map<SocketId, ClientType>
    var lastActivity: nat
    var messageBuffer: seq<Message>
    var bufferedBytes: int
    var directInflightBytes: int
    var seqNumbers: map<SocketId, nat>
    var publicKey: Option<Key>
    var terminated: bool
    var terminatedAt: nat
    ghost var accepted: seq<Message>
    ghost var settled: seq<Settled>

    ghost function View(): Chan
      reads this
    {
      Chan(participants, lastActivity, messageBuffer, bufferedBytes, directInflightBytes, seqNumbers,
           publicKey, terminated, terminatedAt, creatorIp, accepted, settled)
    }

    constructor (ghost ref: nat, creatorIp: Option<Ip>, now: nat)
      ensures this.ref == ref && View() == FreshChan(creatorIp, now)
    {
      this.ref := ref;
      this.creatorIp := creatorIp;
      participants := map[];
      lastActivity := now;
      messageBuffer := [];
      bufferedBytes := 0;
      directInflightBytes := 0;
      seqNumbers := map[];
      publicKey := None;
      terminated := false;
      terminatedAt := 0;
      accepted := [];
      settled := [];
    }
  }

  /** The values of a sequence of channel objects. */
  ghost function Views(cs: seq<Channel>): (store: seq<Chan>)
    reads cs
    ensures |store| == |cs| && forall i :: 0 <= i < |cs| ==> store[i] == cs[i].View()
  {
    seq(|cs|, i requires 0 <= i < |cs| reads cs => cs[i].View())
  }

  // ---------- Scans over a channel's participants ----------

  /** With one socket per role, whichever rival the scan meets is the only one. */
  method FindRival(parts: map<SocketId, ClientType>, s: SocketId, role: ClientType) returns (rival: Option<SocketId>)
    requires RoleUnique(parts)
    ensures rival == Rival(parts, s, role)
  {
    var rest := parts.Keys;
    while rest != {}
      invariant rest <= parts.Keys
      invariant forall o :: o in parts && o !in rest && o != s ==> parts[o] != role
    {
      var o :| o in rest;
      if parts[o] == role && o != s {
        return Some(o);
      }
      rest := rest - {o};
    }
    return None;
  }

  /** With one socket per role, a participant has at most one counterparty. */
  lemma CounterpartUnique(parts: map<SocketId, ClientType>, s: SocketId, a: SocketId, b: SocketId)
    requires RoleUnique(parts) && s in parts && a in parts && b in parts && a != s && b != s
    ensures a == b
  {
    assert parts[a] != parts[s] && parts[b] != parts[s];
  }

  method FindCounterpart(parts: map<SocketId, ClientType>, s: SocketId) returns (other: Option<SocketId>)
    requires RoleUnique(parts) && s in parts
    ensures other == Counterpart(parts, s)
  {
    var rest := parts.Keys;
    while rest != {}
      invariant rest <= parts.Keys
      invariant forall o :: o in parts && o !in rest ==> o == s
    {
      var o :| o in rest;
      if o != s {
        if Counterpart(parts, s).Some? {
          CounterpartUnique(parts, s, o, Counterpart(parts, s).value);
        }
        return Some(o);
      }
      rest := rest - {o};
    }
    return None;
  }

  /** The client types of everyone else in the channel. */
  method Roster(parts: map<SocketId, ClientType>, s: SocketId) returns (types: seq<ClientType>)
    requires RoleUnique(parts) && s in parts
    ensures types == Others(parts, s)
  {
    var rest := parts.Keys;
    types := [];
    while rest != {}
      invariant rest <= parts.Keys
      invariant if exists o :: o in parts && o != s && o !in rest then types == Others(parts, s) else types == []
    {
      var o :| o in rest;
      if o != s {
        forall p | p in parts && p != s ensures p == o {
          CounterpartUnique(parts, s, o, p);
        }
        types := types + [parts[o]];
      }
      rest := rest - {o};
    }
  }

  /** The position of the oldest message for a role, or the buffer's length. */
  method FindNext(buffer: seq<Message>, role: ClientType) returns (i: nat)
    ensures i == FirstFor(buffer, role)
  {
    i := 0;
    while i < |buffer| && buffer[i].target != role
      invariant i <= |buffer| && FirstFor(buffer, role) == i + FirstFor(buffer[i..], role)
    {
      assert buffer[i..][1..] == buffer[i + 1..];
      i := i + 1;
    }
  }

  /** The ids of a FIFO that are still mapped, in order. */
  method KeepMapped(ids: seq<ChannelId>, channels: map<ChannelId, Channel>, ghost names: map<ChannelId, nat>)
    returns (kept: seq<ChannelId>)
    requires names.Keys == channels.Keys
    ensures kept == StillMapped(ids, names)
  {
    kept := [];
    for i := 0 to |ids|
      invariant kept == StillMapped(ids[..i], names)
    {
      assert ids[..i + 1][..i] == ids[..i];
      if ids[i] in channels {
        kept := kept + [ids[i]];
      }
    }
    assert ids[..|ids|] == ids;
  }
}
