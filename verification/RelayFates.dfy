/**
 Where handed-over messages end up. The settlement log says that a message was
 written, promoted or returned by a join; the outbox says in which parcel, and
 whether that parcel reached its socket, is still owed to it, or was lost.
 */
module RelayFates {
  import opened Options
  import opened RelayTypes
  import opened ManagerSpec
  import opened ManagerSafety
  import opened ManagerEffects
  import opened ManagerAnswers
  import opened ManagerLogs
  import opened Mails
  import opened RelaySpec
  import opened RelaySafety
  import opened RelayHistory
  import opened RelayMail

  /** The parcel is a stretch of its object's log, all for its role; only a join's batch can fail to arrive. */
  ghost predicate ParcelOk(r: Relay, k: nat)
    requires k < |r.mail.outbox|
  {
    var p := r.mail.outbox[k];
    && p.to in r.sessions
    && p.from < p.upto <= |Log(r.m, p.ref)|
    && (forall i :: p.from <= i < p.upto ==> EntryOk(Log(r.m, p.ref)[i], p))
  }

  ghost predicate EntryOk(e: Settled, p: Parcel) {
    Handing(e.fate) && e.message.target == p.role && (e.fate.Returned? || p.standing.Reached?)
  }

  ghost predicate ParcelsOk(r: Relay) {
    forall k: nat :: k < |r.mail.outbox| ==> ParcelOk(r, k)
  }

  /** Parcels of one object are disjoint stretches of its log, in the order they were posted. */
  ghost predicate Apart(mail: Mail) {
    forall j, k :: 0 <= j < k < |mail.outbox| && mail.outbox[j].ref == mail.outbox[k].ref ==>
      mail.outbox[j].upto <= mail.outbox[k].from
  }

  ghost predicate Covers(mail: Mail, k: nat, ref: nat, i: nat) {
    k < |mail.outbox| && mail.outbox[k].ref == ref && mail.outbox[k].from <= i < mail.outbox[k].upto
  }

  /** Every message that was handed over is in a parcel. */
  ghost predicate Covered(r: Relay) {
    forall ref: nat, i: nat :: i < |Log(r.m, ref)| && Handing(Log(r.m, ref)[i].fate) ==>
      exists k: nat :: Covers(r.mail, k, ref, i)
  }

  /** The messages of a parcel. */
  function Contents(r: Relay, k: nat): seq<Message>
    requires k < |r.mail.outbox| && ParcelOk(r, k)
  {
    var p := r.mail.outbox[k];
    Plain(Log(r.m, p.ref)[p.from..p.upto])
  }

  /** An owed answer lists exactly the messages of its parcel, which still waits. */
  ghost predicate OwingOk(r: Relay, s: SocketId, o: Owing)
    requires ParcelsOk(r)
  {
    && o.parcel < |r.mail.outbox|
    && r.mail.outbox[o.parcel].to == s && r.mail.outbox[o.parcel].standing.Waiting?
    && ParcelOk(r, o.parcel)
    && o.answer.Joined? && o.answer.messages == Payloads(Contents(r, o.parcel))
  }

  /** A parcel waits exactly while its socket's join owes it. */
  ghost predicate OwedOk(r: Relay)
    requires ParcelsOk(r)
  {
    && (forall s: SocketId :: Owed(r, s).Some? ==> OwingOk(r, s, Owed(r, s).value))
    && (forall k: nat :: k < |r.mail.outbox| && r.mail.outbox[k].standing.Waiting? ==>
          Owed(r, r.mail.outbox[k].to).Some? && Owed(r, r.mail.outbox[k].to).value.parcel == k)
  }

  /** What holds of the mail in every reachable state. */
  ghost predicate MailOk(r: Relay) {
    WireOk(r.mail) && ParcelsOk(r) && Apart(r.mail) && Covered(r) && OwedByDepartures(r) && OwedOk(r)
  }

  ghost predicate LogsExtend(r: Relay, after: Relay) {
    && (forall ref: nat :: Log(r.m, ref) <= Log(after.m, ref))
    && r.sessions.Keys <= after.sessions.Keys
  }

  lemma DiscardsExtend(r: Relay, after: Relay)
    requires OnlyDiscards(r.m, after.m) && r.sessions.Keys <= after.sessions.Keys
    ensures LogsExtend(r, after)
  {
    forall ref: nat ensures Log(r.m, ref) <= Log(after.m, ref) {
      assert Discards(Log(r.m, ref), Log(after.m, ref));
    }
  }

  lemma PostedExtends(r: Relay, after: Relay, p: Posting)
    requires Posted(r, after, p)
    ensures LogsExtend(r, after)
  {
    forall ref: nat ensures Log(r.m, ref) <= Log(after.m, ref) {}
  }

  ghost predicate SameContents(r: Relay, after: Relay, k: nat) {
    && k < |r.mail.outbox| && k < |after.mail.outbox|
    && ParcelOk(r, k) && ParcelOk(after, k)
    && Contents(after, k) == Contents(r, k)
  }

  /** A parcel that kept its place in the outbox keeps its messages. */
  lemma ParcelKept(r: Relay, after: Relay, k: nat)
    requires k < |r.mail.outbox| && ParcelOk(r, k) && LogsExtend(r, after)
    requires k < |after.mail.outbox|
    requires after.mail.outbox[k].(standing := Reached) == r.mail.outbox[k].(standing := Reached)
    requires r.mail.outbox[k].standing.Reached? ==> after.mail.outbox[k].standing.Reached?
    ensures SameContents(r, after, k)
  {
    var p := r.mail.outbox[k];
    assert Log(r.m, p.ref) <= Log(after.m, p.ref);
    assert Log(after.m, p.ref)[p.from..p.upto] == Log(r.m, p.ref)[p.from..p.upto];
    forall i | p.from <= i < p.upto ensures EntryOk(Log(after.m, p.ref)[i], after.mail.outbox[k]) {
      assert EntryOk(Log(r.m, p.ref)[i], p);
    }
  }

  lemma OnlyDiscardsKeepsCovered(r: Relay, after: Relay)
    requires Covered(r) && OnlyDiscards(r.m, after.m) && |r.mail.outbox| == |after.mail.outbox|
    requires forall k: nat, ref: nat, i: nat :: Covers(r.mail, k, ref, i) ==> Covers(after.mail, k, ref, i)
    ensures Covered(after)
  {
    forall ref: nat, i: nat | i < |Log(after.m, ref)| && Handing(Log(after.m, ref)[i].fate)
      ensures exists k: nat :: Covers(after.mail, k, ref, i)
    {
      assert Discards(Log(r.m, ref), Log(after.m, ref));
      var k: nat :| Covers(r.mail, k, ref, i);
      assert Covers(after.mail, k, ref, i);
    }
  }

  // ---------- Posting ----------

  lemma NewParcelOk(r: Relay, after: Relay, p: Posting)
    requires Posted(r, after, p) && p.to in r.sessions && Handing(p.fate) && (p.fate.Returned? || p.standing.Reached?)
    ensures ParcelOk(after, |r.mail.outbox|)
    ensures Contents(after, |r.mail.outbox|) == Gained(r.m, after.m, p.ref)
  {
    var log := Log(after.m, p.ref);
    assert log[|Log(r.m, p.ref)|..|log|] == log[|Log(r.m, p.ref)|..];
  }

  lemma PostedKeepsCovered(r: Relay, after: Relay, p: Posting)
    requires Covered(r) && Posted(r, after, p)
    ensures Covered(after)
  {
    forall ref: nat, i: nat | i < |Log(after.m, ref)| && Handing(Log(after.m, ref)[i].fate)
      ensures exists k: nat :: Covers(after.mail, k, ref, i)
    {
      if i < |Log(r.m, ref)| {
        var k: nat :| Covers(r.mail, k, ref, i);
        assert Covers(after.mail, k, ref, i);
      } else {
        assert Covers(after.mail, |r.mail.outbox|, ref, i);
      }
    }
  }

  lemma PostedKeepsParcels(r: Relay, after: Relay, p: Posting)
    requires ParcelsOk(r) && Posted(r, after, p) && p.to in r.sessions
    requires Handing(p.fate) && (p.fate.Returned? || p.standing.Reached?)
    ensures ParcelsOk(after)
    ensures forall k: nat :: k < |r.mail.outbox| ==> SameContents(r, after, k)
  {
    PostedExtends(r, after, p);
    NewParcelOk(r, after, p);
    hide Posted, ParcelOk, LogsExtend, Contents;
    forall k: nat | k < |r.mail.outbox| ensures SameContents(r, after, k) {
      assert ParcelOk(r, k);
      PostedKeepsPlace(r, after, p, k);
      ParcelKept(r, after, k);
    }
    PostedAddsOne(r, after, p);
    forall k: nat | k < |after.mail.outbox| ensures ParcelOk(after, k) {
      assert k < |r.mail.outbox| ==> SameContents(r, after, k);
    }
  }

  lemma PostedAddsOne(r: Relay, after: Relay, p: Posting)
    requires Posted(r, after, p)
    ensures |after.mail.outbox| == |r.mail.outbox| + 1
    ensures after.mail.outbox[|r.mail.outbox|] == ParcelFor(r, after, p)
  {
  }

  lemma PostedKeepsPlace(r: Relay, after: Relay, p: Posting, k: nat)
    requires Posted(r, after, p) && k < |r.mail.outbox|
    ensures k < |after.mail.outbox| && after.mail.outbox[k] == r.mail.outbox[k]
  {
  }

  lemma PostedKeepsApart(r: Relay, after: Relay, p: Posting)
    requires ParcelsOk(r) && Apart(r.mail) && Posted(r, after, p)
    ensures Apart(after.mail)
  {
    forall j, k | 0 <= j < k < |after.mail.outbox| && after.mail.outbox[j].ref == after.mail.outbox[k].ref
      ensures after.mail.outbox[j].upto <= after.mail.outbox[k].from
    {
      assert ParcelOk(r, j);
    }
  }

  lemma PostedKeepsDepartures(r: Relay, after: Relay, p: Posting)
    requires OwedByDepartures(r) && Posted(r, after, p)
    ensures OwedByDepartures(after)
  {
    hide HandsOver;
    forall s: SocketId | s in after.mail.owed && !(s == p.to && p.standing.Waiting?) ensures Owed(after, s).Some? {
      assert Owed(r, s).Some?;
    }
  }

  lemma PostedKeepsOwed(r: Relay, after: Relay, p: Posting)
    requires ParcelsOk(r) && OwedOk(r) && Posted(r, after, p) && p.to in r.sessions
    requires Handing(p.fate) && (p.fate.Returned? || p.standing.Reached?)
    ensures ParcelsOk(after) && OwedOk(after)
  {
    PostedKeepsParcels(r, after, p);
    NewParcelOk(r, after, p);
    PostedAddsOne(r, after, p);
    hide ParcelOk, Contents, HandsOver, SameContents;
    forall s: SocketId | Owed(after, s).Some? ensures OwingOk(after, s, Owed(after, s).value) {
      if !(s == p.to && p.standing.Waiting?) {
        PostedKeepsOwing(r, after, p, s);
      } else {
        assert ParcelOk(after, |r.mail.outbox|);
      }
    }
    forall k: nat | k < |after.mail.outbox| && after.mail.outbox[k].standing.Waiting?
      ensures Owed(after, after.mail.outbox[k].to).Some? && Owed(after, after.mail.outbox[k].to).value.parcel == k
    {
      if k < |r.mail.outbox| {
        PostedKeepsPlace(r, after, p, k);
      }
    }
  }

  lemma PostedKeepsOwing(r: Relay, after: Relay, p: Posting, s: SocketId)
    requires ParcelsOk(r) && ParcelsOk(after) && OwedOk(r) && Posted(r, after, p)
    requires forall k: nat :: k < |r.mail.outbox| ==> SameContents(r, after, k)
    requires Owed(after, s).Some? && !(s == p.to && p.standing.Waiting?)
    ensures OwingOk(after, s, Owed(after, s).value)
  {
    hide ParcelOk, Contents, HandsOver;
    assert OwingOk(r, s, Owed(r, s).value);
    var k := Owed(r, s).value.parcel;
    assert SameContents(r, after, k);
    PostedKeepsPlace(r, after, p, k);
  }

  lemma PostedKeepsMail(r: Relay, after: Relay, p: Posting)
    requires MailOk(r) && Posted(r, after, p) && p.to in r.sessions
    requires Handing(p.fate) && (p.fate.Returned? || p.standing.Reached?)
    ensures MailOk(after)
  {
    hide WireOk, Apart, Covered, OwedOk, ParcelsOk, HandsOver, OwedByDepartures;
    SendKeepsWire(r.mail, ParcelFor(r, after, p));
    PostedKeepsApart(r, after, p);
    PostedKeepsCovered(r, after, p);
    PostedKeepsDepartures(r, after, p);
    PostedKeepsOwed(r, after, p);
  }

  // ---------- Resolving and everything else ----------

  /** Parcels that keep their places, and at most settle, keep their messages. */
  lemma PlacesKept(r: Relay, after: Relay)
    requires ParcelsOk(r) && Covered(r)
    requires OnlyDiscards(r.m, after.m) && r.sessions.Keys <= after.sessions.Keys
    requires |after.mail.outbox| == |r.mail.outbox|
    requires forall k: nat :: k < |r.mail.outbox| ==>
               && after.mail.outbox[k].(standing := Reached) == r.mail.outbox[k].(standing := Reached)
               && (r.mail.outbox[k].standing.Reached? ==> after.mail.outbox[k].standing.Reached?)
    ensures ParcelsOk(after) && Covered(after)
    ensures Apart(r.mail) ==> Apart(after.mail)
    ensures forall k: nat :: k < |r.mail.outbox| ==> SameContents(r, after, k)
  {
    DiscardsExtend(r, after);
    forall k: nat | k < |r.mail.outbox| ensures SameContents(r, after, k) {
      assert ParcelOk(r, k);
      ParcelKept(r, after, k);
    }
    forall k: nat | k < |after.mail.outbox| ensures ParcelOk(after, k) {
      assert SameContents(r, after, k);
    }
    OnlyDiscardsKeepsCovered(r, after);
  }

  lemma ResolvedKeepsDepartures(r: Relay, after: Relay, q: Resolution)
    requires OwedByDepartures(r) && Resolved(r, after, q)
    requires q.parcel < |r.mail.outbox| && r.mail.outbox[q.parcel].to == q.s
    ensures OwedByDepartures(after)
  {
    hide OnlyDiscards;
    forall s: SocketId | s in after.mail.owed ensures Owed(after, s).Some? {
      assert Owed(r, s).Some?;
    }
  }

  lemma ResolvedKeepsMail(r: Relay, after: Relay, q: Resolution)
    requires MailOk(r) && Resolved(r, after, q)
    requires Owed(r, q.s).Some? && Owed(r, q.s).value.parcel == q.parcel
    ensures MailOk(after)
  {
    hide WireOk, Covered, ParcelOk, Contents, OnlyDiscards, Apart, OwedByDepartures;
    assert OwingOk(r, q.s, Owed(r, q.s).value);
    SettleKeepsWire(r.mail, q.parcel, q.sent);
    PlacesKept(r, after);
    ResolvedKeepsDepartures(r, after, q);
    forall s: SocketId | Owed(after, s).Some? ensures OwingOk(after, s, Owed(after, s).value) {
      assert OwingOk(r, s, Owed(r, s).value);
      assert SameContents(r, after, Owed(r, s).value.parcel);
    }
  }

  lemma UnpostedKeepsDepartures(r: Relay, after: Relay)
    requires OwedByDepartures(r) && Unposted(r, after)
    ensures OwedByDepartures(after)
  {
    hide OnlyDiscards;
    forall s: SocketId | s in after.mail.owed ensures Owed(after, s).Some? {
      assert Owed(r, s).Some?;
    }
  }

  lemma UnpostedKeepsMail(r: Relay, after: Relay)
    requires MailOk(r) && Unposted(r, after)
    ensures MailOk(after)
  {
    hide WireOk, Covered, ParcelOk, Contents, OnlyDiscards, Apart, OwedByDepartures;
    PlacesKept(r, after);
    UnpostedKeepsDepartures(r, after);
    forall s: SocketId | Owed(after, s).Some? ensures OwingOk(after, s, Owed(after, s).value) {
      assert OwingOk(r, s, Owed(r, s).value);
      assert SameContents(r, after, Owed(r, s).value.parcel);
    }
  }

  // ---------- Every event and every run ----------

  lemma PostsFacts(r: Relay, e: Event)
    requires r.m.RefsOk() && Coherent(r) && Posts(r, e).Some?
    requires forall id: ChannelId, s: SocketId :: SeatedAt(r.m, id, s) ==> s in r.sessions
    ensures var p := Posts(r, e).value;
            p.to in r.sessions && Handing(p.fate) && (p.fate.Returned? || p.standing.Reached?)
  {
    hide AdmitsJoin, BatchStanding, Fits;
    match e
    case MessageSent(s, id, data) =>
      var t: SocketId :| SeatedAt(r.m, id, t) && t != s;
      assert SeatedAt(r.m, id, Counterpart(r.m.At(id).participants, s).value);
    case _ =>
  }

  lemma HandleKeepsMail(r: Relay, e: Event, now: nat)
    requires r.m.RefsOk() && Inv(r, now) && MailOk(r)
    ensures MailOk(Handle(r, e, now))
  {
    assert Coherent(r) && HomeSeats(r);
    var after := Handle(r, e, now);
    HandlePosts(r, e, now);
    hide Handle, Inv, MailOk, Posted, Resolved, Unposted, Coherent;
    if Posts(r, e).Some? {
      PostsFacts(r, e);
      PostedKeepsMail(r, after, Posts(r, e).value);
    } else if Resolves(r, e).Some? {
      ResolvedKeepsMail(r, after, Resolves(r, e).value);
    } else {
      UnpostedKeepsMail(r, after);
    }
  }

  lemma EmptyMailOk(limits: Limits)
    ensures MailOk(EmptyRelay(limits))
  {
  }

  /** In every reachable state the outbox accounts for every message handed over, and owed answers carry their
      parcels. */
  lemma {:induction false} RunKeepsMail(limits: Limits, run: seq<Timed>, k: nat)
    requires k <= |run|
    ensures MailOk(StateAt(limits, run, k))
  {
    hide MailOk, Handle, Inv;
    if k == 0 {
      EmptyMailOk(limits);
      assert run[..0] == [];
    } else {
      RunKeepsMail(limits, run, k - 1);
      StateAtInv(limits, run, k - 1);
      StateNext(limits, run, k - 1);
      StepKeepsMail(StateAt(limits, run, k - 1), run[k - 1]);
    }
  }

  lemma StepKeepsMail(r: Relay, t: Timed)
    requires r.m.RefsOk() && Inv(r, r.clock) && MailOk(r)
    ensures MailOk(Step(r, t))
  {
    hide Inv, Handle, MailOk;
    var now := r.clock + t.elapsed;
    InvLater(r, r.clock, now);
    HandleKeepsMail(r, t.event, now);
    ClockKeepsMail(Handle(r, t.event, now), now);
  }

  lemma ClockKeepsMail(r: Relay, now: nat)
    requires MailOk(r)
    ensures MailOk(r.(clock := now))
  {
    var after := r.(clock := now);
    LogsDiscardNothing(r, after);
    UnpostedKeepsMail(r, after);
  }

  lemma LogsDiscardNothing(r: Relay, after: Relay)
    requires after == r.(clock := after.clock)
    ensures Unposted(r, after)
  {
    SameLogsSelf(r.m);
    hide OnlyDiscards;
    assert forall s: SocketId :: Owed(after, s) == Owed(r, s);
  }

  // ---------- Exactly one parcel ----------

  /** In every reachable state an accepted message waits or was settled, once; a settled one is in exactly one parcel
      if it was handed over and in none if it was discarded. */
  lemma HandedOverOnce(limits: Limits, run: seq<Timed>, ref: nat, i: nat)
    requires ref < |StateAt(limits, run, |run|).m.store|
    requires i < |StateAt(limits, run, |run|).m.store[ref].settled|
    ensures var r := StateAt(limits, run, |run|);
            var c := r.m.store[ref];
            && multiset(c.accepted) == multiset(Plain(c.settled)) + multiset(c.buffer)
            && (Handing(c.settled[i].fate) <==> exists k: nat :: Covers(r.mail, k, ref, i))
            && (forall j: nat, k: nat :: Covers(r.mail, j, ref, i) && Covers(r.mail, k, ref, i) ==> j == k)
  {
    var r := StateAt(limits, run, |run|);
    RunKeepsMail(limits, run, |run|);
    StateAtInv(limits, run, |run|);
    hide StateAt, WireOk, OwedOk;
    assert ChanOk(r.m.store[ref], r.clock);
    assert Log(r.m, ref) == r.m.store[ref].settled;
    forall k: nat | Covers(r.mail, k, ref, i) ensures Handing(Log(r.m, ref)[i].fate) {
      assert ParcelOk(r, k);
      assert EntryOk(Log(r.m, ref)[i], r.mail.outbox[k]);
    }
  }

  // ---------- Standings ----------

  /** A parcel keeps its messages, and once it has reached its socket or is lost it stays so. */
  ghost predicate Follows(mail: Mail, after: Mail) {
    && |mail.outbox| <= |after.outbox|
    && (forall k: nat :: k < |mail.outbox| ==>
          && after.outbox[k].(standing := Waiting) == mail.outbox[k].(standing := Waiting)
          && (mail.outbox[k].standing.Waiting? || after.outbox[k] == mail.outbox[k]))
    && mail.wire <= after.wire
  }

  /** The event loses parcel `k`: a join seats a socket that is gone or asked for no acknowledgement, or the room it
      leaves cannot be left, or the socket is gone when its answer is due. */
  ghost predicate Loses(r: Relay, e: Event, k: nat)
    requires r.m.RefsOk()
  {
    match e
    case JoinChannel(s, _, _, _, wantsAck) => Posts(r, e).Some? && !(r.Alive(s) && wantsAck) && k == |r.mail.outbox|
    case RoomEntered(s, _) =>
      Posts(r, e).Some? && !(r.Alive(s) && r.sessions[s].joining.wantsAck) && k == |r.mail.outbox|
    case RoomLeft(s, ok) => Owed(r, s).Some? && Owed(r, s).value.parcel == k && !(ok && r.Alive(s))
    case _ => false
  }

  /** The event sends parcel `k`: a write, a promotion, the answer of a join that left nothing, or an owed answer. */
  ghost predicate Sends(r: Relay, e: Event, k: nat)
    requires r.m.RefsOk()
  {
    || (Posts(r, e).Some? && Posts(r, e).value.standing.Reached? && k == |r.mail.outbox|)
    || (Resolves(r, e).Some? && Resolves(r, e).value.parcel == k && Resolves(r, e).value.sent)
  }

  ghost predicate Stands(mail: Mail, k: nat, standing: Standing) {
    k < |mail.outbox| && mail.outbox[k].standing == standing
  }

  lemma PostingLoses(r: Relay, e: Event, k: nat)
    requires r.m.RefsOk()
    ensures Loses(r, e, k) <==>
              || (Posts(r, e).Some? && Posts(r, e).value.standing.Lost? && k == |r.mail.outbox|)
              || (Resolves(r, e).Some? && Resolves(r, e).value.parcel == k && !Resolves(r, e).value.sent)
  {
    hide AdmitsJoin, WritesNow, Promotes;
  }

  lemma SendStandings(mail: Mail, p: Parcel, k: nat)
    ensures Follows(mail, Send(mail, p))
    ensures Stands(Send(mail, p), k, Lost) <==> Stands(mail, k, Lost) || (p.standing.Lost? && k == |mail.outbox|)
    ensures Stands(Send(mail, p), k, Reached) <==>
              Stands(mail, k, Reached) || (p.standing.Reached? && k == |mail.outbox|)
  {
  }

  lemma SettleStandings(mail: Mail, parcel: nat, sent: bool, k: nat)
    requires parcel < |mail.outbox| && mail.outbox[parcel].standing.Waiting?
    ensures Follows(mail, Settle(mail, parcel, sent))
    ensures Stands(Settle(mail, parcel, sent), k, Lost) <==> Stands(mail, k, Lost) || (k == parcel && !sent)
    ensures Stands(Settle(mail, parcel, sent), k, Reached) <==> Stands(mail, k, Reached) || (k == parcel && sent)
  {
  }

  /** One event changes the standing of exactly the parcels it sends or loses. */
  lemma StepStandings(r: Relay, t: Timed, k: nat)
    requires r.m.RefsOk() && Inv(r, r.clock) && MailOk(r)
    ensures Follows(r.mail, Step(r, t).mail)
    ensures Stands(Step(r, t).mail, k, Lost) <==> Stands(r.mail, k, Lost) || Loses(r, t.event, k)
    ensures Stands(Step(r, t).mail, k, Reached) <==> Stands(r.mail, k, Reached) || Sends(r, t.event, k)
  {
    hide Inv, Handle, Loses, Coherent, WireOk, ParcelOk, Covered, Apart, HandsOver, OnlyDiscards, Posts, Resolves, Send,
         Settle, OwedByDepartures;
    var now, e := r.clock + t.elapsed, t.event;
    InvLater(r, r.clock, now);
    HandlePosts(r, e, now);
    PostingLoses(r, e, k);
    if Posts(r, e).Some? {
      PostersResolveNothing(r, e);
      SendStandings(r.mail, ParcelFor(r, Handle(r, e, now), Posts(r, e).value), k);
    } else if Resolves(r, e).Some? {
      ResolvesOwed(r, e);
      var q := Resolves(r, e).value;
      assert OwingOk(r, q.s, Owed(r, q.s).value);
      SettleStandings(r.mail, q.parcel, q.sent, k);
    }
  }

  lemma PostersResolveNothing(r: Relay, e: Event)
    requires r.m.RefsOk() && Posts(r, e).Some?
    ensures Resolves(r, e).None?
  {
  }

  lemma ResolvesOwed(r: Relay, e: Event)
    requires Resolves(r, e).Some?
    ensures var q := Resolves(r, e).value; Owed(r, q.s).Some? && Owed(r, q.s).value.parcel == q.parcel
  {
  }

  ghost predicate LosesAt(limits: Limits, run: seq<Timed>, i: nat, k: nat)
    requires i < |run|
  {
    Loses(StateAt(limits, run, i), run[i].event, k)
  }

  ghost predicate SendsAt(limits: Limits, run: seq<Timed>, i: nat, k: nat)
    requires i < |run|
  {
    Sends(StateAt(limits, run, i), run[i].event, k)
  }

  /** Over every run a parcel is lost exactly if some event lost it, has reached its socket exactly if some event sent
      it, and otherwise is still owed. */
  lemma {:induction false} LostIff(limits: Limits, run: seq<Timed>, n: nat, k: nat)
    requires n <= |run|
    ensures var mail := StateAt(limits, run, n).mail;
            && (Stands(mail, k, Lost) <==> exists i: nat :: i < n && LosesAt(limits, run, i, k))
            && (Stands(mail, k, Reached) <==> exists i: nat :: i < n && SendsAt(limits, run, i, k))
  {
    hide StateAt, Step, Inv, MailOk, Loses, Sends, Follows;
    if n == 0 {
      StartsEmpty(limits, run);
    } else {
      LostIff(limits, run, n - 1, k);
      StateAtInv(limits, run, n - 1);
      RunKeepsMail(limits, run, n - 1);
      StateNext(limits, run, n - 1);
      StepStandings(StateAt(limits, run, n - 1), run[n - 1], k);
      assert LosesAt(limits, run, n - 1, k) == Loses(StateAt(limits, run, n - 1), run[n - 1].event, k);
      assert SendsAt(limits, run, n - 1, k) == Sends(StateAt(limits, run, n - 1), run[n - 1].event, k);
    }
  }

  lemma StartsEmpty(limits: Limits, run: seq<Timed>)
    ensures StateAt(limits, run, 0) == EmptyRelay(limits)
  {
    assert run[..0] == [];
  }

  /** Between two states of a run every parcel keeps its messages and no parcel changes once sent or lost. */
  lemma {:induction false} StandingsAreFinal(limits: Limits, run: seq<Timed>, i: nat, j: nat)
    requires i <= j <= |run|
    ensures Follows(StateAt(limits, run, i).mail, StateAt(limits, run, j).mail)
    decreases j
  {
    hide StateAt, Step, Inv, MailOk, Loses, Sends;
    if i < j {
      StandingsAreFinal(limits, run, i, j - 1);
      StateAtInv(limits, run, j - 1);
      RunKeepsMail(limits, run, j - 1);
      StateNext(limits, run, j - 1);
      StepStandings(StateAt(limits, run, j - 1), run[j - 1], 0);
    }
  }

  // ---------- What the answers carry ----------

  /** The answer given in the turn that seats carries exactly the batch it posts; a switching join owes it instead. */
  lemma JoinAnswerCarriesBatch(r: Relay, e: Event, now: nat)
    requires r.m.RefsOk() && Inv(r, now) && (e.JoinChannel? || e.RoomEntered?) && Posts(r, e).Some?
    ensures var ack := if e.JoinChannel? then OnJoinAck(r, e.s, e.id, e.role, e.offer, e.wantsAck, now)
                       else OnRoomEnteredAck(r, e.s, e.ok, now);
            Answers(r, Handle(r, e, now), ack, Posts(r, e).value)
  {
    hide Seat, SeatAck, SeatPosting, Inv, Answers;
    assert Shape(r.m, now) by {
      SoundShape(r, now);
    }
    var j := r.sessions[e.s].joining;
    if e.JoinChannel? {
      SeatAnswers(r, e.s, e.id, e.role, e.offer, false, false, e.wantsAck, now);
      if e.id !in r.m.channels {
        CapacityAdmitsNoQueue(r, e.s, e.id, e.role, e.offer, e.wantsAck);
      }
    } else {
      SeatAnswers(r, e.s, j.id, j.role, j.offer, j.switching, true, j.wantsAck, now);
    }
  }

  lemma SoundShape(r: Relay, now: nat)
    requires Inv(r, now)
    ensures r.m.RefsOk() && Shape(r.m, now)
  {
  }

  /** An owed answer lists exactly the messages of its parcel, and they go out with it. */
  lemma OwedAnswerCarriesBatch(r: Relay, s: SocketId, ok: bool)
    requires MailOk(r) && Owed(r, s).Some?
    ensures var k := Owed(r, s).value.parcel;
            && k < |r.mail.outbox| && ParcelOk(r, k)
            && match OnRoomLeftAck(r, s, ok)
               case Some(ack) => && ok && ack.Answered? && ack.result.Joined?
                                 && ack.result.messages == Payloads(Contents(r, k))
                                 && (r.Alive(s) ==> Resolves(r, RoomLeft(s, ok)) == Some(Resolution(s, k, true)))
               case None => !ok && Resolves(r, RoomLeft(s, ok)) == Some(Resolution(s, k, false))
  {
    assert OwingOk(r, s, Owed(r, s).value);
  }
}
