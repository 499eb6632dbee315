/**
 Which events hand messages to which sockets. `Posts` and `Resolves` read that
 off the state before an event; the lemmas say that the settlement logs, the
 outbox and the wire change in exactly that way.
 */
module RelayMail {
  import opened Options
  import opened RelayTypes
  import opened ManagerSpec
  import opened ManagerSafety
  import opened ManagerEffects
  import opened ManagerSteps
  import opened ManagerAnswers
  import opened ManagerLogs
  import opened DeliveryOrder
  import opened Mails
  import opened RelaySpec
  import opened RelaySteps
  import opened RelaySafety

  /** The manager would seat the socket, judging by seats, keys, tombstones and the cap. */
  ghost predicate AdmitsJoin(r: Relay, s: SocketId, id: ChannelId, role: ClientType, offer: KeyOffer)
    requires r.m.RefsOk() && s in r.sessions
  {
    Admits(r.m, id, s, role, offer, Some(r.sessions[s].ip), r.sockets.Keys)
  }

  lemma SeatedIffAdmitted(r: Relay, s: SocketId, id: ChannelId, role: ClientType, offer: KeyOffer, now: nat)
    requires r.m.RefsOk() && Shape(r.m, now) && s in r.sessions
    ensures Seated(SeatResult(r, s, id, role, offer, now).1) <==> AdmitsJoin(r, s, id, role, offer)
  {
    JoinSucceedsIff(r.m, id, s, role, offer, Some(r.sessions[s].ip), r.sockets.Keys, now);
    hide Join, Admits, Shape;
  }

  /** Messages for `role` of the object at `ref` that an event settles for the socket `to`. */
  datatype Posting = Posting(to: SocketId, ref: nat, role: ClientType, fate: Fate, standing: Standing)

  /** An owed acknowledgement is given to `s`, with the messages of a parcel, or will not be. */
  datatype Resolution = Resolution(s: SocketId, parcel: nat, sent: bool)

  /** The answer, with a parcel of messages, that a switching join still owes its client. */
  datatype Owing = Owing(answer: JoinResult, parcel: nat)

  function Owed(r: Relay, s: SocketId): Option<Owing> {
    if s in r.sessions && r.sessions[s].joining.Departing? && r.sessions[s].joining.wantsAck && s in r.mail.owed
    then Some(Owing(r.sessions[s].joining.answer, r.mail.owed[s]))
    else None
  }

  /** Only a join that still has to leave its previous room, and was asked to, owes an answer, with its own parcel. */
  ghost predicate OwedByDepartures(r: Relay) {
    forall s: SocketId :: s in r.mail.owed ==>
      && s in r.sessions && r.sessions[s].joining.Departing? && r.sessions[s].joining.wantsAck
      && r.mail.owed[s] < |r.mail.outbox| && r.mail.outbox[r.mail.owed[s]].to == s
  }

  /** The ready event moves a waiting message into the socket's reservation. */
  ghost predicate Promotes(r: Relay, s: SocketId)
    requires r.m.RefsOk()
  {
    && s in r.listeners && r.listeners[s] == Readying && r.Alive(s) && r.sockets[s].writable && s in r.m.deliveries
    && var c := r.m.store[r.m.deliveries[s].channel];
       s in c.participants && !c.terminated && !NoneFor(c.buffer, c.participants[s])
  }

  ghost function SeatPosting(r: Relay, s: SocketId, id: ChannelId, role: ClientType, offer: KeyOffer, moves: bool,
                             wantsAck: bool): Option<Posting>
    requires r.m.RefsOk() && s in r.sessions
  {
    if AdmitsJoin(r, s, id, role, offer) && id in r.m.channels && !NoneFor(r.m.At(id).buffer, role)
    then Some(Posting(s, r.m.channels[id], role, Returned, BatchStanding(r, s, moves, wantsAck)))
    else None
  }

  /** What the event hands over, if anything: a direct write, a promotion, or the batch of a join that seats. */
  ghost function Posts(r: Relay, e: Event): Option<Posting>
    requires r.m.RefsOk()
  {
    match e
    case JoinChannel(s, id, role, offer, wantsAck) =>
      if s in r.sockets && s in r.sessions && r.sessions[s].joining.Idle? && r.sessions[s].current == Some(id)
      then SeatPosting(r, s, id, role, offer, false, wantsAck)
      else None
    case RoomEntered(s, ok) =>
      if ok && s in r.sessions && r.sessions[s].joining.Entering? then
        var j := r.sessions[s].joining;
        SeatPosting(r, s, j.id, j.role, j.offer, j.switching && r.sessions[s].current.Some?, j.wantsAck)
      else None
    case MessageSent(s, id, data) =>
      if s in r.sockets && s in r.sessions && WritesNow(r.m, id, s, data, r.sessions[s].ip, r.Receivable()) then
        Some(Posting(Counterpart(r.m.At(id).participants, s).value, r.m.channels[id], Other(data.clientType),
                     Handed, Reached))
      else None
    case Readied(s) =>
      if Promotes(r, s) then
        var ref := r.m.deliveries[s].channel;
        Some(Posting(s, ref, r.m.store[ref].participants[s], Promoted, Reached))
      else None
    case _ => None
  }

  /** The owed acknowledgement the event decides: it goes out if the room was left and the socket is still alive. */
  function Resolves(r: Relay, e: Event): Option<Resolution> {
    match e
    case RoomLeft(s, ok) =>
      if Owed(r, s).Some? then Some(Resolution(s, Owed(r, s).value.parcel, ok && r.Alive(s))) else None
    case _ => None
  }

  // ---------- What a handler did ----------

  function ParcelFor(r: Relay, after: Relay, p: Posting): Parcel {
    Parcel(p.to, p.ref, p.role, |Log(r.m, p.ref)|, |Log(after.m, p.ref)|, p.standing)
  }

  ghost predicate Posted(r: Relay, after: Relay, p: Posting) {
    && HandsOver(r.m, after.m, p.ref, p.role, p.fate)
    && |Log(r.m, p.ref)| < |Log(after.m, p.ref)|
    && after.mail == Send(r.mail, ParcelFor(r, after, p))
    && after.sockets == r.sockets
    && after.sessions.Keys == r.sessions.Keys
    && (forall s: SocketId :: !(s == p.to && p.standing.Waiting?) ==> Owed(after, s) == Owed(r, s))
    && (p.standing.Waiting? ==>
          && Owed(r, p.to).None?
          && Owed(after, p.to).Some? && Owed(after, p.to).value.parcel == |r.mail.outbox|
          && Owed(after, p.to).value.answer.Joined?
          && Owed(after, p.to).value.answer.messages == Payloads(Gained(r.m, after.m, p.ref)))
  }

  ghost predicate Resolved(r: Relay, after: Relay, q: Resolution) {
    && OnlyDiscards(r.m, after.m)
    && after.mail == Settle(r.mail, q.parcel, q.sent)
    && after.sockets == r.sockets
    && after.sessions.Keys == r.sessions.Keys
    && (forall s: SocketId :: s != q.s ==> Owed(after, s) == Owed(r, s))
    && Owed(after, q.s).None?
  }

  /** No socket appears under a known session, none comes back to life, and nothing is sent or owed. */
  ghost predicate SameMail(r: Relay, after: Relay) {
    && after.mail == r.mail
    && (forall s: SocketId :: s in after.sockets ==> s in r.sockets || s !in r.sessions)
    && (forall s: SocketId :: s in r.sockets && after.Alive(s) ==> r.Alive(s))
    && r.sessions.Keys <= after.sessions.Keys
    && (forall s: SocketId :: Owed(after, s) == Owed(r, s))
  }

  ghost predicate Unposted(r: Relay, after: Relay) {
    OnlyDiscards(r.m, after.m) && SameMail(r, after)
  }

  ghost predicate Did(r: Relay, after: Relay, posts: Option<Posting>, resolves: Option<Resolution>) {
    match posts
    case Some(p) => Posted(r, after, p)
    case None =>
      match resolves
      case Some(q) => Resolved(r, after, q)
      case None => Unposted(r, after)
  }

  // ---------- join ----------

  /** What seating settles: the whole queue of the role if it seats, nothing otherwise. */
  lemma SeatSettles(r: Relay, s: SocketId, id: ChannelId, role: ClientType, offer: KeyOffer, moves: bool,
                    wantsAck: bool, now: nat)
    requires r.m.RefsOk() && Shape(r.m, now) && s in r.sessions
    ensures var (m', result) := SeatResult(r, s, id, role, offer, now);
            var ref := ObjectFor(r.m, id);
            match SeatPosting(r, s, id, role, offer, moves, wantsAck)
            case Some(p) =>
              && Seated(result) && p.ref == ref
              && p == Posting(s, ref, role, Returned, BatchStanding(r, s, moves, wantsAck))
              && HandsOver(r.m, m', ref, role, Returned) && Settles(r.m, m', ref)
              && result.messages == Payloads(Gained(r.m, m', ref))
            case None =>
              OnlyDiscards(r.m, m') && (Seated(result) ==> !Settles(r.m, m', ref))
  {
    SeatedIffAdmitted(r, s, id, role, offer, now);
    JoinLogs(r.m, id, s, role, offer, Some(r.sessions[s].ip), r.sockets.Keys, now);
    NoneForIsEmpty(ManagerLogs.Waiting(r.m, id), role);
    hide Join, AdmitsJoin, Shape, Pick, BatchStanding;
  }

  /** What seating posts and which answer it still owes, in terms of what it settles. */
  lemma SeatOwes(r: Relay, s: SocketId, id: ChannelId, role: ClientType, offer: KeyOffer,
                 switching: bool, inRoom: bool, wantsAck: bool, now: nat)
    requires r.m.RefsOk() && s in r.sessions
    requires s !in r.mail.owed
    ensures var (m', result) := SeatResult(r, s, id, role, offer, now);
            var ref := ObjectFor(r.m, id);
            var moves := switching && r.sessions[s].current.Some?;
            var standing := BatchStanding(r, s, moves, wantsAck);
            var after := Seat(r, s, id, role, offer, switching, inRoom, wantsAck, now);
            var posts := Seated(result) && Settles(r.m, m', ref);
            && after.mail == (if posts
                              then Send(r.mail, Parcel(s, ref, role, |Log(r.m, ref)|, |Log(m', ref)|, standing))
                              else r.mail)
            && Owed(after, s) == (if posts && standing.Waiting? then Some(Owing(result, |r.mail.outbox|)) else None)
  {
    hide SeatResult, Leave, Log, Settles;
  }

  lemma SeatPosts(r: Relay, s: SocketId, id: ChannelId, role: ClientType, offer: KeyOffer,
                  switching: bool, inRoom: bool, wantsAck: bool, now: nat)
    requires r.m.RefsOk() && Shape(r.m, now) && s in r.sessions && !r.sessions[s].joining.Departing?
    requires OwedByDepartures(r)
    ensures Did(r, Seat(r, s, id, role, offer, switching, inRoom, wantsAck, now),
                SeatPosting(r, s, id, role, offer, switching && r.sessions[s].current.Some?, wantsAck), None)
  {
    hide Seat, SeatResult, Leave, SeatPosting, Shape, HandsOver, OnlyDiscards, SameLogs, ObjectFor, BatchStanding, Log,
         Gained;
    var session := r.sessions[s];
    var (m', result) := SeatResult(r, s, id, role, offer, now);
    var after := Seat(r, s, id, role, offer, switching, inRoom, wantsAck, now);
    SeatFacts(r, s, id, role, offer, switching, inRoom, wantsAck, now);
    SeatOwes(r, s, id, role, offer, switching, inRoom, wantsAck, now);
    SeatSettles(r, s, id, role, offer, switching && session.current.Some?, wantsAck, now);
    SameLogsSelf(m');
    if session.current.Some? {
      LeaveLogs(m', s, session.current.value, now);
    }
    ThenSameLogs(r.m, m', after.m, ObjectFor(r.m, id), role, Returned);
    assert forall t: SocketId :: t != s ==> Owed(after, t) == Owed(r, t);
  }

  /** The answer given in the turn that seats lists exactly what the seat settles; a switching join owes it. */
  lemma SeatAnswers(r: Relay, s: SocketId, id: ChannelId, role: ClientType, offer: KeyOffer,
                    switching: bool, inRoom: bool, wantsAck: bool, now: nat)
    requires r.m.RefsOk() && Shape(r.m, now) && s in r.sessions
    requires SeatPosting(r, s, id, role, offer, switching && r.sessions[s].current.Some?, wantsAck).Some?
    ensures var p := SeatPosting(r, s, id, role, offer, switching && r.sessions[s].current.Some?, wantsAck).value;
            Answers(r, Seat(r, s, id, role, offer, switching, inRoom, wantsAck, now),
                    SeatAck(r, s, id, role, offer, switching, inRoom, wantsAck, now), p)
  {
    var session := r.sessions[s];
    var moves := switching && session.current.Some?;
    var (m', result) := SeatResult(r, s, id, role, offer, now);
    var after := Seat(r, s, id, role, offer, switching, inRoom, wantsAck, now);
    hide Seat, SeatResult, Leave, SeatPosting, Shape, HandsOver, OnlyDiscards, SameLogs, ObjectFor, Gained;
    SeatFacts(r, s, id, role, offer, switching, inRoom, wantsAck, now);
    SeatSettles(r, s, id, role, offer, moves, wantsAck, now);
    SameLogsSelf(m');
    if session.current.Some? {
      LeaveLogs(m', s, session.current.value, now);
    }
    ThenSameLogs(r.m, m', after.m, ObjectFor(r.m, id), role, Returned);
    HandsOverGrows(r.m, m', ObjectFor(r.m, id), role, Returned);
  }

  lemma HandsOverGrows(m: Manager, after: Manager, ref: nat, role: ClientType, fate: Fate)
    requires HandsOver(m, after, ref, role, fate)
    ensures |Log(m, ref)| <= |Log(after, ref)|
  {
  }

  /** What the client of a join that posts `p` is answered in the same turn. */
  ghost predicate Answers(r: Relay, after: Relay, ack: Option<JoinAck>, p: Posting) {
    && (p.standing.Reached? ==> ack.Some?)
    && (p.standing.Waiting? ==> ack.None?)
    && (ack.Some? ==>
          && ack.value.Answered? && ack.value.result.Joined?
          && |Log(r.m, p.ref)| <= |Log(after.m, p.ref)|
          && ack.value.result.messages == Payloads(Gained(r.m, after.m, p.ref)))
  }

  // ---------- message ----------

  lemma DisconnectPosts(r: Relay, s: SocketId, now: nat)
    requires r.m.RefsOk()
    ensures Unposted(r, Disconnect(r, s, now))
  {
    var ops := DisconnectOps(r, s, now);
    ApplyAllOnlyDiscards(r.m, ops, now);
    hide Release, Leave, ApplyAll, OnlyDiscards;
  }

  lemma UnpostedTwice(a: Relay, b: Relay, c: Relay)
    requires OnlyDiscards(a.m, b.m) && b == a.(m := b.m) && Unposted(b, c)
    ensures Unposted(a, c)
  {
    OnlyDiscardsTwice(a.m, b.m, c.m);
    hide OnlyDiscards;
  }

  lemma DirectMessagePosts(r: Relay, s: SocketId, id: ChannelId, data: Payload, now: nat)
    requires r.m.RefsOk() && Shape(r.m, now) && Tidy(r) && s in r.sockets && s in r.sessions
    requires WritesNow(r.m, id, s, data, r.sessions[s].ip, r.Receivable())
    ensures Did(r, OnMessage(r, s, id, data, now).0, Posts(r, MessageSent(s, id, data)), None)
  {
    hide Route, Shape, Tidy, HandsOver, WritesNow, OnMessage;
    WritesDirectlyIff(r.m, id, s, data, r.sessions[s].ip, r.Receivable(), now);
    RouteLogs(r.m, id, s, data, r.sessions[s].ip, r.Receivable(), now);
    DirectMessage(r, s, id, data, now);
    DirectTarget(r.m, id, s, data, r.sessions[s].ip, r.Receivable(), now);
  }

  lemma DirectTarget(m: Manager, id: ChannelId, s: SocketId, data: Payload, ip: Ip, receivable: set<SocketId>, now: nat)
    requires m.RefsOk() && Route(m, id, s, data, ip, receivable, now).1.target.Some?
    ensures id in m.channels
    ensures Route(m, id, s, data, ip, receivable, now).1.target == Counterpart(m.At(id).participants, s)
  {
  }

  lemma OnMessagePosts(r: Relay, s: SocketId, id: ChannelId, data: Payload, now: nat)
    requires r.m.RefsOk() && Shape(r.m, now) && Tidy(r)
    ensures Did(r, OnMessage(r, s, id, data, now).0, Posts(r, MessageSent(s, id, data)), None)
  {
    hide Route, Shape, Tidy, OnlyDiscards, HandsOver, WritesNow, Disconnect;
    SameLogsSelf(r.m);
    if s in r.sockets && s in r.sessions {
      var (m', result) := Route(r.m, id, s, data, r.sessions[s].ip, r.Receivable(), now);
      WritesDirectlyIff(r.m, id, s, data, r.sessions[s].ip, r.Receivable(), now);
      if result.target.Some? {
        hide OnMessage, Did, Posts;
        DirectMessagePosts(r, s, id, data, now);
      } else {
        var routed := r.(m := m');
        RouteLogs(r.m, id, s, data, r.sessions[s].ip, r.Receivable(), now);
        if result.backpressured.Some? && result.backpressured.value !in m'.deliveries {
          DisconnectPosts(routed, result.backpressured.value, now);
          UnpostedTwice(r, routed, Disconnect(routed, result.backpressured.value, now));
        }
      }
    }
  }

  // ---------- ready ----------

  lemma AdvancesIff(r: Relay, s: SocketId)
    requires r.m.RefsOk() && s in r.m.deliveries
    ensures var c := r.m.store[r.m.deliveries[s].channel];
            Advance(r.m, s).1.Some? <==>
              s in c.participants && !c.terminated && !NoneFor(c.buffer, c.participants[s])
  {
    hide Release, Promote;
  }

  lemma WriteNextPosts(r: Relay, s: SocketId, now: nat)
    requires r.m.RefsOk() && r.CanArm(s) && s in r.m.deliveries
    ensures var ref := r.m.deliveries[s].channel;
            var c := r.m.store[ref];
            Did(r, WriteNext(r, s, now),
                if s in c.participants && !c.terminated && !NoneFor(c.buffer, c.participants[s])
                then Some(Posting(s, ref, c.participants[s], Promoted, Reached)) else None,
                None)
  {
    hide Advance, Release, Disconnect, HandsOver, NoneFor, OnlyDiscards, SameLogs;
    var advanced := Advance(r.m, s).0;
    AdvancesIff(r, s);
    AdvanceLogs(r.m, s);
    ReleaseLogs(advanced, s);
    ThenSameLogs(r.m, advanced, Release(advanced, s), 0, Dapp, Handed);
    SameLogsSelf(advanced);
    ThenSameLogs(r.m, advanced, advanced, 0, Dapp, Handed);
  }

  lemma OnReadyPosts(r: Relay, s: SocketId, now: nat)
    requires r.m.RefsOk() && Coherent(r)
    ensures Did(r, OnReady(r, s, now), Posts(r, Readied(s)), None)
  {
    hide WriteNext, Release, HandsOver, NoneFor, OnlyDiscards, SameLogs;
    SameLogsSelf(r.m);
    ReleaseLogs(r.m, s);
    ThenSameLogs(r.m, r.m, Release(r.m, s), 0, Dapp, Handed);
    if s in r.listeners && r.listeners[s] == Readying && r.Alive(s) && r.sockets[s].writable {
      var fired := r.(listeners := r.listeners - {s});
      WriteNextPosts(fired, s, now);
      FiredPosts(r, fired, WriteNext(fired, s, now), Posts(r, Readied(s)));
    }
  }

  /** Removing a listener posts nothing. */
  lemma FiredPosts(r: Relay, fired: Relay, after: Relay, posts: Option<Posting>)
    requires fired == r.(listeners := fired.listeners) && Did(fired, after, posts, None)
    ensures Did(r, after, posts, None)
  {
    hide HandsOver, OnlyDiscards;
    assert forall s: SocketId :: Owed(fired, s) == Owed(r, s);
  }

  // ---------- Every event ----------

  lemma PartingDiscards(r: Relay, e: Event, now: nat)
    requires r.m.RefsOk() && Parting(e)
    ensures OnlyDiscards(r.m, Handle(r, e, now).m)
  {
    hide Handle, ApplyAll, OnlyDiscards;
    var ops := HandleOps(r, e, now);
    ApplyAllOnlyDiscards(r.m, ops, now);
  }

  lemma OnRoomLeftPosts(r: Relay, s: SocketId, ok: bool, now: nat)
    requires r.m.RefsOk()
    requires OwedByDepartures(r)
    ensures Did(r, OnRoomLeft(r, s, ok, now), None, Resolves(r, RoomLeft(s, ok)))
  {
    hide Leave, OnlyDiscards, Settle, OnRoomLeft;
    PartingDiscards(r, RoomLeft(s, ok), now);
    OnRoomLeftOwes(r, s, ok, now);
  }

  lemma OnRoomLeftOwes(r: Relay, s: SocketId, ok: bool, now: nat)
    requires r.m.RefsOk()
    requires OwedByDepartures(r)
    ensures var after := OnRoomLeft(r, s, ok, now);
            && after.sockets == r.sockets && after.sessions.Keys == r.sessions.Keys
            && (forall t: SocketId :: t != s ==> Owed(after, t) == Owed(r, t))
            && Owed(after, s).None?
            && after.mail == match Owed(r, s)
                             case Some(o) => Settle(r.mail, o.parcel, ok && r.Alive(s))
                             case None => r.mail
  {
    hide Leave;
  }

  lemma PartingPosts(r: Relay, e: Event, now: nat)
    requires r.m.RefsOk() && Coherent(r) && Parting(e) && !e.RoomLeft?
    ensures Unposted(r, Handle(r, e, now))
  {
    hide Leave, Close, Release, Cleanup, OnlyDiscards, OnLeave, OnClose, Disconnect, SweepEach;
    PartingDiscards(r, e, now);
    match e
    case LeaveChannel(s, requested) => OnLeaveSameMail(r, s, requested, now);
    case CloseChannel(s, requested) => OnCloseSameMail(r, s, requested, now);
    case Disconnected(s) => DisconnectPosts(r, s, now);
    case _ =>
  }

  lemma OnLeaveSameMail(r: Relay, s: SocketId, requested: Option<ChannelId>, now: nat)
    requires r.m.RefsOk()
    ensures SameMail(r, OnLeave(r, s, requested, now))
  {
    hide Leave;
  }

  lemma OnCloseSameMail(r: Relay, s: SocketId, requested: Option<ChannelId>, now: nat)
    requires r.m.RefsOk()
    ensures SameMail(r, OnClose(r, s, requested, now).0)
  {
    hide Leave, Close;
  }

  lemma JoiningPosts(r: Relay, e: Event, now: nat)
    requires r.m.RefsOk() && Shape(r.m, now) && (e.JoinChannel? || e.RoomEntered?)
    requires OwedByDepartures(r)
    ensures Did(r, Handle(r, e, now), Posts(r, e), None)
  {
    hide Seat, SeatPosting, Shape, OnlyDiscards, HandsOver, SameLogs, Posted, Resolved, OwedByDepartures;
    SameLogsSelf(r.m);
    if e.s in r.sessions {
      var session := r.sessions[e.s];
      if e.JoinChannel? && session.joining.Idle? && session.current == Some(e.id) {
        SeatPosts(r, e.s, e.id, e.role, e.offer, false, false, e.wantsAck, now);
        if e.id !in r.m.channels {
          CapacityAdmitsNoQueue(r, e.s, e.id, e.role, e.offer, e.wantsAck);
        }
      }
      if e.RoomEntered? && session.joining.Entering? {
        var j := session.joining;
        SeatPosts(r, e.s, j.id, j.role, j.offer, j.switching, true, j.wantsAck, now);
      }
    }
  }

  /** A channel that would have to be created has nothing waiting. */
  lemma CapacityAdmitsNoQueue(r: Relay, s: SocketId, id: ChannelId, role: ClientType, offer: KeyOffer, wantsAck: bool)
    requires r.m.RefsOk() && s in r.sessions && id !in r.m.channels
    ensures SeatPosting(r, s, id, role, offer, false, wantsAck).None?
  {
  }

  /** Every event hands over, resolves and discards exactly what can be read off the state before it. */
  lemma HandlePosts(r: Relay, e: Event, now: nat)
    requires r.m.RefsOk() && Inv(r, now)
    requires OwedByDepartures(r)
    ensures Did(r, Handle(r, e, now), Posts(r, e), Resolves(r, e))
  {
    assert Shape(r.m, now) && Tidy(r) && Coherent(r);
    hide Did, Shape, Tidy, Seat, SeatPosting, OnMessage, OnReady, OnRoomLeft, WritesNow, Promotes, Inv;
    match e
    case JoinChannel(_, _, _, _, _) => JoiningPosts(r, e, now);
    case RoomEntered(_, _) => JoiningPosts(r, e, now);
    case MessageSent(s, id, data) => OnMessagePosts(r, s, id, data, now);
    case Readied(s) => OnReadyPosts(r, s, now);
    case RoomLeft(s, ok) => OnRoomLeftPosts(r, s, ok, now);
    case _ =>
      PartingPosts(r, e, now);
      UnpostedIsDid(r, Handle(r, e, now));
  }

  lemma UnpostedIsDid(r: Relay, after: Relay)
    requires Unposted(r, after)
    ensures Did(r, after, None, None)
  {
  }
}
