/**
 What the relay hands to sockets. A parcel is a run of consecutive entries of
 one channel object's settlement log that go to one socket together: a single
 write, or the batch a join acknowledgement carries. A batch may wait for its
 acknowledgement; the wire lists the parcels in the order they were sent.
 */
module Mails {
  import opened RelayTypes

  datatype Standing = Waiting | Reached | Lost

  datatype Parcel = Parcel(to: SocketId, ref: nat, role: ClientType, from: nat, upto: nat, standing: Standing) {
    /** For the same role of the same channel object. */
    predicate SameLane(other: Parcel) {
      ref == other.ref && role == other.role
    }
  }

  /**
   `outbox` in the order in which the parcels were settled, `wire` in the order in which they were sent, and for
   each socket the parcel of the answer it is owed.
   */
  datatype Mail = Mail(outbox: seq<Parcel>, wire: seq<nat>, owed: map<SocketId, nat>)

  const NO_MAIL := Mail([], [], map[])

  function Send(mail: Mail, p: Parcel): Mail {
    var k := |mail.outbox|;
    Mail(mail.outbox + [p],
         if p.standing.Reached? then mail.wire + [k] else mail.wire,
         if p.standing.Waiting? then mail.owed[p.to := k] else mail.owed)
  }

  /** The acknowledgement that carries parcel `k` is sent, or never will be. */
  function Settle(mail: Mail, k: nat, sent: bool): Mail {
    if k >= |mail.outbox| then mail
    else
      Mail(mail.outbox[k := mail.outbox[k].(standing := if sent then Reached else Lost)],
           if sent then mail.wire + [k] else mail.wire,
           mail.owed - {mail.outbox[k].to})
  }

  /** The wire lists every parcel that was sent, once. */
  ghost predicate WireOk(mail: Mail) {
    && (forall a :: 0 <= a < |mail.wire| ==> mail.wire[a] < |mail.outbox|)
    && (forall a, b :: 0 <= a < b < |mail.wire| ==> mail.wire[a] != mail.wire[b])
    && (forall k: nat :: k < |mail.outbox| ==> (mail.outbox[k].standing.Reached? <==> k in mail.wire))
  }

  /** The parcel waits for an acknowledgement that can still reach its socket. */
  ghost predicate Due(mail: Mail, k: nat, alive: set<SocketId>) {
    k < |mail.outbox| && mail.outbox[k].standing.Waiting? && mail.outbox[k].to in alive
  }

  /** An acknowledgement with older messages of this lane is still due. */
  ghost predicate Pending(mail: Mail, ref: nat, role: ClientType, before: nat, alive: set<SocketId>) {
    exists k: nat :: k < before && Due(mail, k, alive) && mail.outbox[k].ref == ref && mail.outbox[k].role == role
  }

  /** Each lane's parcels are sent in the order they were settled. */
  ghost predicate WireSorted(mail: Mail)
    requires WireOk(mail)
  {
    forall a, b :: 0 <= a < b < |mail.wire| ==>
      mail.outbox[mail.wire[a]].SameLane(mail.outbox[mail.wire[b]]) ==> mail.wire[a] < mail.wire[b]
  }

  /** A newer parcel of the same lane has been sent. */
  ghost predicate Outrun(mail: Mail, k: nat)
    requires WireOk(mail) && k < |mail.outbox|
  {
    exists b :: 0 <= b < |mail.wire| && mail.wire[b] > k && mail.outbox[mail.wire[b]].SameLane(mail.outbox[k])
  }

  lemma SendKeepsSorted(mail: Mail, p: Parcel)
    requires WireOk(mail) && WireSorted(mail)
    ensures WireOk(Send(mail, p)) && WireSorted(Send(mail, p))
  {
    SendKeepsWire(mail, p);
    assert forall a :: 0 <= a < |mail.wire| ==> Send(mail, p).outbox[mail.wire[a]] == mail.outbox[mail.wire[a]];
  }

  /** Settling a waiting parcel keeps the lanes sorted unless it is sent after a newer one. */
  lemma SettleKeepsSortedIff(mail: Mail, k: nat, sent: bool)
    requires WireOk(mail) && WireSorted(mail) && k < |mail.outbox| && mail.outbox[k].standing.Waiting?
    ensures WireOk(Settle(mail, k, sent))
    ensures WireSorted(Settle(mail, k, sent)) <==> !(sent && Outrun(mail, k))
  {
    var after := Settle(mail, k, sent);
    SettleKeepsWire(mail, k, sent);
    assert forall a :: 0 <= a < |mail.wire| ==> after.outbox[mail.wire[a]] == mail.outbox[mail.wire[a]];
    if sent {
      assert after.wire[|mail.wire|] == k;
      assert forall p: Parcel :: p.SameLane(after.outbox[k]) <==> p.SameLane(mail.outbox[k]);
    }
  }

  /** The lanes are sorted, and nothing was sent while an older parcel of its lane is still due. */
  ghost predicate InWireOrder(mail: Mail, alive: set<SocketId>)
    requires WireOk(mail)
  {
    && WireSorted(mail)
    && (forall b :: 0 <= b < |mail.wire| ==>
          !Pending(mail, mail.outbox[mail.wire[b]].ref, mail.outbox[mail.wire[b]].role, mail.wire[b], alive))
  }

  lemma FewerAlivePend(mail: Mail, ref: nat, role: ClientType, before: nat, alive: set<SocketId>, fewer: set<SocketId>)
    requires forall k: nat :: k < |mail.outbox| && mail.outbox[k].to in fewer ==> mail.outbox[k].to in alive
    ensures Pending(mail, ref, role, before, fewer) ==> Pending(mail, ref, role, before, alive)
  {
    forall k: nat ensures Due(mail, k, fewer) ==> Due(mail, k, alive) {}
  }

  lemma FewerAliveKeepsOrder(mail: Mail, alive: set<SocketId>, fewer: set<SocketId>)
    requires WireOk(mail) && InWireOrder(mail, alive)
    requires forall k: nat :: k < |mail.outbox| && mail.outbox[k].to in fewer ==> mail.outbox[k].to in alive
    ensures InWireOrder(mail, fewer)
  {
    hide Pending;
    forall b | 0 <= b < |mail.wire|
      ensures !Pending(mail, mail.outbox[mail.wire[b]].ref, mail.outbox[mail.wire[b]].role, mail.wire[b], fewer)
    {
      var k := mail.wire[b];
      FewerAlivePend(mail, mail.outbox[k].ref, mail.outbox[k].role, k, alive, fewer);
    }
  }

  lemma SendKeepsWire(mail: Mail, p: Parcel)
    requires WireOk(mail)
    ensures WireOk(Send(mail, p))
  {
    var after := Send(mail, p);
    assert forall k: nat :: k in after.wire <==> k in mail.wire || (p.standing.Reached? && k == |mail.outbox|);
  }

  /** A new parcel changes nothing about what was due before an older one. */
  lemma SendKeepsPending(mail: Mail, p: Parcel, ref: nat, role: ClientType, before: nat, alive: set<SocketId>)
    requires before <= |mail.outbox|
    ensures Pending(Send(mail, p), ref, role, before, alive) <==> Pending(mail, ref, role, before, alive)
  {
    forall k: nat | k < before
      ensures Send(mail, p).outbox[k] == mail.outbox[k] && Due(Send(mail, p), k, alive) == Due(mail, k, alive)
    {
    }
  }

  /** Sending keeps the order exactly when nothing older of the lane is still due. */
  lemma SendKeepsOrderIff(mail: Mail, p: Parcel, alive: set<SocketId>)
    requires WireOk(mail) && InWireOrder(mail, alive)
    ensures WireOk(Send(mail, p))
    ensures InWireOrder(Send(mail, p), alive) <==>
              !(p.standing.Reached? && Pending(mail, p.ref, p.role, |mail.outbox|, alive))
  {
    var after, n := Send(mail, p), |mail.outbox|;
    SendKeepsWire(mail, p);
    SendKeepsPending(mail, p, p.ref, p.role, n, alive);
    forall b | 0 <= b < |mail.wire|
      ensures after.outbox[mail.wire[b]] == mail.outbox[mail.wire[b]]
      ensures !Pending(after, after.outbox[mail.wire[b]].ref, after.outbox[mail.wire[b]].role, mail.wire[b], alive)
    {
      var k := mail.wire[b];
      SendKeepsPending(mail, p, mail.outbox[k].ref, mail.outbox[k].role, k, alive);
    }
    hide Pending;
    if p.standing.Reached? {
      assert after.wire[|mail.wire|] == n && after.outbox[n] == p;
    }
  }

  lemma SettleKeepsWire(mail: Mail, k: nat, sent: bool)
    requires WireOk(mail) && k < |mail.outbox| && mail.outbox[k].standing.Waiting?
    ensures WireOk(Settle(mail, k, sent))
  {
  }

  lemma SettleKeepsPending(mail: Mail, k: nat, sent: bool, ref: nat, role: ClientType, before: nat,
                           alive: set<SocketId>)
    requires k < |mail.outbox| && before <= |mail.outbox|
    ensures Pending(Settle(mail, k, sent), ref, role, before, alive) ==> Pending(mail, ref, role, before, alive)
    ensures before <= k && Pending(mail, ref, role, before, alive) ==>
              Pending(Settle(mail, k, sent), ref, role, before, alive)
  {
    var after := Settle(mail, k, sent);
    forall j: nat | j < before
      ensures after.outbox[j].ref == mail.outbox[j].ref && after.outbox[j].role == mail.outbox[j].role
      ensures Due(after, j, alive) ==> Due(mail, j, alive)
      ensures j != k ==> (Due(after, j, alive) <==> Due(mail, j, alive))
    {
    }
  }

  /** Sending a waiting parcel keeps the order exactly when nothing older of its lane is still due; losing one always
      does. */
  lemma SettleKeepsOrderIff(mail: Mail, k: nat, sent: bool, alive: set<SocketId>)
    requires WireOk(mail) && InWireOrder(mail, alive)
    requires k < |mail.outbox| && mail.outbox[k].standing.Waiting? && (sent ==> mail.outbox[k].to in alive)
    ensures WireOk(Settle(mail, k, sent))
    ensures InWireOrder(Settle(mail, k, sent), alive) <==>
              !(sent && Pending(mail, mail.outbox[k].ref, mail.outbox[k].role, k, alive))
  {
    var after, p := Settle(mail, k, sent), mail.outbox[k];
    SettleKeepsWire(mail, k, sent);
    SettleKeepsPending(mail, k, sent, p.ref, p.role, k, alive);
    forall b | 0 <= b < |mail.wire|
      ensures after.outbox[mail.wire[b]] == mail.outbox[mail.wire[b]]
      ensures !Pending(after, after.outbox[mail.wire[b]].ref, after.outbox[mail.wire[b]].role, mail.wire[b], alive)
      ensures sent && mail.outbox[mail.wire[b]].SameLane(p) ==> mail.wire[b] < k
    {
      var x := mail.wire[b];
      SettleKeepsPending(mail, k, sent, mail.outbox[x].ref, mail.outbox[x].role, x, alive);
      assert Due(mail, k, alive) || !sent;
    }
    hide Pending;
    if sent {
      assert after.wire[|mail.wire|] == k && after.outbox[k].ref == p.ref && after.outbox[k].role == p.role;
    }
  }
}
