/**
 What clients are told. Every answer of a handler is tied to the state it was
 decided in and to what the handler did, so a client can believe it: a join's one
 answer is its first fault, the tombstone or its seat; a message is confirmed
 exactly when it was recorded; a confirmed close has closed.
 */
module RelayAnswers {
  import opened Options
  import opened RelayTypes
  import opened Ledgers
  import opened ManagerSpec
  import opened ManagerSafety
  import opened ManagerOps
  import opened ManagerEffects
  import opened ManagerAnswers
  import opened ManagerOutcomes
  import opened RouteFaults
  import opened Mails
  import opened RelaySpec
  import opened RelaySafety
  import opened RelayHistory

  // ---------- What a join deserves ----------

  /** What waits in the channel for the role. */
  function WaitingFor(m: Manager, id: ChannelId, role: ClientType): seq<Message>
    requires id in m.channels ==> m.channels[id] < |m.store|
  {
    if id in m.channels then For(m.At(id).buffer, role) else []
  }

  /** The counterparty's role, if one is seated. */
  ghost function Facing(m: Manager, id: ChannelId, s: SocketId, role: ClientType): seq<ClientType>
    requires m.RefsOk()
  {
    if exists o: SocketId :: SeatedAt(m, id, o) && o != s && m.At(id).participants[o] == Other(role)
    then [Other(role)] else []
  }

  ghost predicate FirstFaultIs(m: Manager, id: ChannelId, s: SocketId, role: ClientType, offer: KeyOffer, ip: Ip,
                               active: set<SocketId>, error: JoinError)
    requires m.RefsOk()
  {
    && Fault(m, id, s, role, offer, Some(ip), active, error)
    && forall other :: Fault(m, id, s, role, offer, Some(ip), active, other) ==> Rank(error) <= Rank(other)
  }

  /** The answer of a join, read off the state it is decided in: its first fault; else the tombstone; else its seat with
      all that waited, the channel's key and the counterparty. */
  ghost predicate Deserves(m: Manager, id: ChannelId, s: SocketId, role: ClientType, offer: KeyOffer, ip: Ip,
                           active: set<SocketId>, answer: JoinResult)
    requires m.RefsOk()
  {
    && (forall e :: answer == Refused(e) <==> FirstFaultIs(m, id, s, role, offer, ip, active, e))
    && (answer == Joined([], None, [], true) <==>
          Tombstone(m, id) && forall e :: !Fault(m, id, s, role, offer, Some(ip), active, e))
    && (Admits(m, id, s, role, offer, Some(ip), active) ==>
          answer == Joined(Payloads(WaitingFor(m, id, role)),
                           if BoundKey(m, id).Some? then BoundKey(m, id)
                           else if role.Dapp? && offer.Decoded? then Some(offer.key) else None,
                           Facing(m, id, s, role), false))
  }

  /** Whoever else is listed after a join faces it: anyone else in its role is gone. */
  lemma RosterFaces(m: Manager, after: Manager, id: ChannelId, s: SocketId, role: ClientType, roster: seq<ClientType>,
                    now: nat)
    requires m.RefsOk() && after.RefsOk() && id in after.channels
    requires Lists(after.At(id).participants, s, roster)
    requires id in m.channels ==> SeatsIn(m.At(id), after.At(id), s, role, now)
    requires id !in m.channels ==> after.At(id).participants == map[s := role]
    ensures roster == Facing(m, id, s, role)
  {
    var parts := after.At(id).participants;
    if o: SocketId :| o in parts && o != s {
      assert SeatedAt(m, id, o) && m.At(id).participants[o] == Other(role);
    } else {
      assert forall o: SocketId :: SeatedAt(m, id, o) && o != s ==> o !in parts;
    }
  }

  lemma JoinDeserves(m: Manager, id: ChannelId, s: SocketId, role: ClientType, offer: KeyOffer, ip: Ip,
                     active: set<SocketId>, now: nat)
    requires m.RefsOk() && Shape(m, now)
    ensures Deserves(m, id, s, role, offer, ip, active, Join(m, id, s, role, offer, Some(ip), active, now).1)
  {
    hide Join, Fault, Shape, Tombstone, Lists, HandsBack, Facing, SeatsIn, WaitingFor, BoundKey, Payloads, Rank;
    var (after, answer) := Join(m, id, s, role, offer, Some(ip), active, now);
    JoinSucceedsIff(m, id, s, role, offer, Some(ip), active, now);
    forall e ensures answer == Refused(e) <==> FirstFaultIs(m, id, s, role, offer, ip, active, e) {
      JoinRefusedIff(m, id, s, role, offer, Some(ip), active, now, e);
    }
    if answer.Joined? && answer.terminated {
      TombstoneIsBare(m, id, s, role, offer, ip, active, now);
    }
    if answer.Joined? && !answer.terminated {
      SeatedDeserves(m, id, s, role, offer, ip, active, now);
    }
  }

  lemma TombstoneIsBare(m: Manager, id: ChannelId, s: SocketId, role: ClientType, offer: KeyOffer, ip: Ip,
                        active: set<SocketId>, now: nat)
    requires m.RefsOk()
    ensures var answer := Join(m, id, s, role, offer, Some(ip), active, now).1;
            answer.Joined? && answer.terminated ==> answer == Joined([], None, [], true)
  {
    hide JoinExisting;
    if id in m.channels {
      JoinExistingEffect(m, m.channels[id], s, role, CanonicalKey(role, offer), active, now);
    }
    var grown := Allocate(m, id, Some(ip), now);
    JoinExistingEffect(grown, |m.store|, s, role, CanonicalKey(role, offer), active, now);
  }

  lemma SeatedDeserves(m: Manager, id: ChannelId, s: SocketId, role: ClientType, offer: KeyOffer, ip: Ip,
                       active: set<SocketId>, now: nat)
    requires m.RefsOk() && Shape(m, now) && Seated(Join(m, id, s, role, offer, Some(ip), active, now).1)
    ensures Join(m, id, s, role, offer, Some(ip), active, now).1 ==
            Joined(Payloads(WaitingFor(m, id, role)),
                   if BoundKey(m, id).Some? then BoundKey(m, id)
                   else if role.Dapp? && offer.Decoded? then Some(offer.key) else None,
                   Facing(m, id, s, role), false)
  {
    hide Join, Shape, Lists, Facing, SeatsIn, BoundKey;
    var (after, answer) := Join(m, id, s, role, offer, Some(ip), active, now);
    JoinAnswers(m, id, s, role, offer, Some(ip), active, now);
    JoinSeats(m, id, s, role, offer, Some(ip), active, now);
    JoinBindsKey(m, id, s, role, offer, Some(ip), active, now);
    RosterFaces(m, after, id, s, role, answer.roster, now);
    assert For([], role) == [];
  }

  // ---------- The answers of one event ----------

  /** What a join is told in the turn of this event, if anything. */
  ghost function JoinAckAt(r: Relay, e: Event, now: nat): Option<JoinAck>
    requires r.m.RefsOk()
  {
    match e
    case JoinChannel(s, id, role, offer, wantsAck) => OnJoinAck(r, s, id, role, offer, wantsAck, now)
    case RoomEntered(s, ok) => OnRoomEnteredAck(r, s, ok, now)
    case RoomLeft(s, ok) => OnRoomLeftAck(r, s, ok)
    case _ => None
  }

  /** The relay is full for a channel it does not know. */
  ghost predicate AtItsCap(m: Manager, id: ChannelId)
    requires m.RefsOk()
  {
    id !in m.channels && |set x | x in m.channels && !m.At(x).terminated| >= m.limits.maxActiveChannels
  }

  /** The request is taken up: its socket is there and has no other join under way, and the relay has room. */
  ghost predicate TakenUp(r: Relay, e: Event)
    requires r.m.RefsOk()
  {
    && e.JoinChannel? && e.s in r.sockets && e.s in r.sessions && r.sessions[e.s].joining.Idle?
    && !AtItsCap(r.m, e.id)
  }

  /** What a request to join is told at once, and when it is told nothing yet because it must enter the room. */
  lemma JoinAnsweredAtOnce(r: Relay, e: Event, now: nat)
    requires r.m.RefsOk() && Shape(r.m, now) && e.JoinChannel?
    ensures var ack, after := JoinAckAt(r, e, now), Handle(r, e, now);
            var present := e.s in r.sockets && e.s in r.sessions;
            && (ack == Some(AlreadyJoining) <==> e.wantsAck && present && !r.sessions[e.s].joining.Idle?)
            && (ack == Some(AtCapacity) <==>
                  e.wantsAck && present && r.sessions[e.s].joining.Idle? && AtItsCap(r.m, e.id))
            && (ack.Some? && ack.value.Answered? <==>
                  e.wantsAck && TakenUp(r, e) && r.sessions[e.s].current == Some(e.id))
            && (ack.Some? && ack.value.Answered? ==>
                  Deserves(r.m, e.id, e.s, e.role, e.offer, r.sessions[e.s].ip, r.sockets.Keys, ack.value.result))
            && ack != Some(Unable)
            && (TakenUp(r, e) && r.sessions[e.s].current != Some(e.id) ==>
                  && e.s in after.sessions
                  && after.sessions[e.s].joining ==
                     Entering(e.id, e.role, e.offer, r.sessions[e.s].current.Some?, e.wantsAck)
                  && after == r.(sessions := after.sessions))
            && (!TakenUp(r, e) ==> after == r)
            && (TakenUp(r, e) && r.sessions[e.s].current == Some(e.id) ==> after.sessions[e.s].joining.Idle?)
  {
    hide Deserves, Seat, SeatResult, Shape;
    assert LiveIds(r.m) == set x | x in r.m.channels && !r.m.At(x).terminated;
    if e.s in r.sessions {
      SeatDeserves(r, e.s, e.id, e.role, e.offer, false, false, e.wantsAck, now);
    }
  }

  /** What the synchronous middle of a join decides: its answer, and what is still to be done before it is given. */
  lemma SeatDeserves(r: Relay, s: SocketId, id: ChannelId, role: ClientType, offer: KeyOffer,
                     switching: bool, inRoom: bool, wantsAck: bool, now: nat)
    requires r.m.RefsOk() && Shape(r.m, now) && s in r.sessions
    ensures var answer := SeatResult(r, s, id, role, offer, now).1;
            var after := Seat(r, s, id, role, offer, switching, inRoom, wantsAck, now);
            var ack := SeatAck(r, s, id, role, offer, switching, inRoom, wantsAck, now);
            var moves := switching && r.sessions[s].current.Some?;
            && Deserves(r.m, id, s, role, offer, r.sessions[s].ip, r.sockets.Keys, answer)
            && (Seated(answer) <==> Admits(r.m, id, s, role, offer, Some(r.sessions[s].ip), r.sockets.Keys))
            && s in after.sessions
            && var session := after.sessions[s];
               if Seated(answer) && moves then ack.None? && session.joining == Departing(id, answer, wantsAck)
               else if !Seated(answer) && inRoom then
                 ack.None? && session.joining == Retreating(Answered(answer), wantsAck)
               else
                 && session.joining == Idle && (Seated(answer) ==> session.current == Some(id))
                 && ack == if wantsAck then Some(Answered(answer)) else None
  {
    hide Join, Leave, Deserves, Shape, Post, BatchStanding, ObjectFor, Admits;
    JoinDeserves(r.m, id, s, role, offer, r.sessions[s].ip, r.sockets.Keys, now);
    JoinSucceedsIff(r.m, id, s, role, offer, Some(r.sessions[s].ip), r.sockets.Keys, now);
  }

  // ---------- A join that has to wait ----------

  /** A request to join, as the client made it. */
  datatype Request = Request(s: SocketId, id: ChannelId, role: ClientType, offer: KeyOffer, wantsAck: bool)

  /** The event continues a join of this socket, if one is under way. */
  predicate Resumes(e: Event, s: SocketId) {
    (e.RoomEntered? || e.RoomLeft?) && e.s == s
  }

  /** Event `i` takes the request up, and the socket has to enter the room first. */
  ghost predicate Opens(limits: Limits, run: seq<Timed>, i: nat, q: Request)
    requires i < |run|
  {
    var r := StateAt(limits, run, i);
    && run[i].event == JoinChannel(q.s, q.id, q.role, q.offer, q.wantsAck)
    && TakenUp(r, run[i].event) && r.sessions[q.s].current != Some(q.id)
  }

  ghost predicate Busy(limits: Limits, run: seq<Timed>, x: nat, s: SocketId)
    requires x <= |run|
  {
    s in StateAt(limits, run, x).sessions && !StateAt(limits, run, x).sessions[s].joining.Idle?
  }

  /** The join opened at `i` is still under way in every state up to `x`. */
  ghost predicate StillOpen(limits: Limits, run: seq<Timed>, i: nat, x: nat, s: SocketId)
    requires x <= |run|
  {
    forall y :: i < y <= x ==> Busy(limits, run, y, s)
  }

  /** Event `j` is the first after `i` to settle the socket's wait for the room. */
  ghost predicate Enters(run: seq<Timed>, s: SocketId, i: nat, j: nat) {
    && i < j < |run| && run[j].event.RoomEntered? && run[j].event.s == s
    && forall y :: i < y < j ==> !(run[y].event.RoomEntered? && run[y].event.s == s)
  }

  /** Between `j` and `x` the socket could not leave a room. */
  ghost predicate Stumbles(run: seq<Timed>, s: SocketId, j: nat, x: nat)
    requires x <= |run|
  {
    exists y :: j < y < x && run[y].event == RoomLeft(s, false)
  }

  /** What the manager says when event `j` lets the socket into the room. */
  ghost function OutcomeAt(limits: Limits, run: seq<Timed>, j: nat, q: Request): JoinResult
    requires j < |run| && q.s in StateAt(limits, run, j).sessions
  {
    var r := StateAt(limits, run, j);
    SeatResult(r, q.s, q.id, q.role, q.offer, r.clock + run[j].elapsed).1
  }

  /** The phase of a join that has been decided and waits for a room to be left. */
  predicate Carries(joining: Joining, q: Request, outcome: JoinResult, stumbled: bool) {
    if stumbled then joining == Retreating(Unable, q.wantsAck)
    else if Seated(outcome) then joining == Departing(q.id, outcome, q.wantsAck)
    else joining == Retreating(Answered(outcome), q.wantsAck)
  }

  lemma DisconnectKeepsSessions(r: Relay, s: SocketId, now: nat)
    requires r.m.RefsOk()
    ensures Disconnect(r, s, now).sessions == r.sessions
  {
    hide Leave, Release;
  }

  lemma MessageKeepsSessions(r: Relay, s: SocketId, id: ChannelId, data: Payload, now: nat)
    requires r.m.RefsOk()
    ensures OnMessage(r, s, id, data, now).0.sessions == r.sessions
  {
    hide Disconnect, Release, Route, Post;
    if s in r.sockets && s in r.sessions {
      var (m', result) := Route(r.m, id, s, data, r.sessions[s].ip, r.Receivable(), now);
      var routed := DropSlow(r.(m := m'), result.backpressured, now);
      if result.backpressured.Some? {
        DisconnectKeepsSessions(r.(m := m'), result.backpressured.value, now);
      }
      if result.target.Some? {
        DisconnectKeepsSessions(ReleaseDelivery(routed, result.target.value), result.target.value, now);
      }
    }
  }

  lemma ReadyKeepsSessions(r: Relay, s: SocketId, now: nat)
    requires r.m.RefsOk()
    ensures OnReady(r, s, now).sessions == r.sessions
  {
    hide Disconnect, Release, Advance, Post;
    DisconnectKeepsSessions(r.(listeners := r.listeners - {s}, m := Release(r.m, s)), s, now);
  }

  lemma PartingKeepsJoining(r: Relay, e: Event, s: SocketId, now: nat)
    requires r.m.RefsOk() && s in r.sessions && (e.LeaveChannel? || e.CloseChannel?)
    ensures var after := Handle(r, e, now);
            s in after.sessions && after.sessions[s].joining == r.sessions[s].joining
  {
    hide Leave, Close;
  }

  lemma JoiningKeepsOthers(r: Relay, e: Event, s: SocketId, now: nat)
    requires r.m.RefsOk() && s in r.sessions && (e.JoinChannel? || e.RoomEntered? || e.RoomLeft?) && e.s != s
    ensures var after := Handle(r, e, now); s in after.sessions && after.sessions[s] == r.sessions[s]
  {
    hide Seat, Leave, LiveIds, Settle;
    if e.s in r.sessions {
      var joining := r.sessions[e.s].joining;
      if e.JoinChannel? {
        SeatFacts(r, e.s, e.id, e.role, e.offer, false, false, e.wantsAck, now);
      } else if joining.Entering? {
        SeatFacts(r, e.s, joining.id, joining.role, joining.offer, joining.switching, true, joining.wantsAck, now);
      }
    }
  }

  /** Only its own events move a join that is under way. */
  lemma OthersKeepJoining(r: Relay, e: Event, s: SocketId, now: nat)
    requires r.m.RefsOk() && s in r.sessions && !Resumes(e, s)
    requires e.JoinChannel? && e.s == s ==> !r.sessions[s].joining.Idle?
    ensures var after := Handle(r, e, now);
            s in after.sessions && after.sessions[s].joining == r.sessions[s].joining
  {
    hide OnMessage, OnReady, Disconnect, OnJoin, OnRoomEntered, OnRoomLeft, OnLeave, OnClose, OnDrain, Cleanup;
    if e.MessageSent? {
      MessageKeepsSessions(r, e.s, e.id, e.data, now);
    } else if e.Readied? {
      ReadyKeepsSessions(r, e.s, now);
    } else if e.Disconnected? {
      DisconnectKeepsSessions(r, e.s, now);
    } else if e.LeaveChannel? || e.CloseChannel? {
      PartingKeepsJoining(r, e, s, now);
    } else if (e.JoinChannel? || e.RoomEntered? || e.RoomLeft?) && e.s != s {
      JoiningKeepsOthers(r, e, s, now);
    } else {
      QuietKeepsJoining(r, e, s, now);
    }
  }

  lemma QuietKeepsJoining(r: Relay, e: Event, s: SocketId, now: nat)
    requires r.m.RefsOk() && s in r.sessions
    requires e.Connected? || e.Transport? || e.Drained? || e.Sweep? ||
             (e.JoinChannel? && e.s == s && !r.sessions[s].joining.Idle?)
    ensures var after := Handle(r, e, now);
            s in after.sessions && after.sessions[s].joining == r.sessions[s].joining
  {
    hide Seat, LiveIds, Cleanup;
  }

  lemma RoomEnteredMoves(r: Relay, s: SocketId, ok: bool, now: nat)
    requires r.m.RefsOk() && Shape(r.m, now) && s in r.sessions
    ensures var ack, after := OnRoomEnteredAck(r, s, ok, now), OnRoomEntered(r, s, ok, now);
            var joining := r.sessions[s].joining;
            && s in after.sessions
            && (ack.Some? ==> after.sessions[s].joining.Idle?)
            && (!joining.Entering? ==> after == r && ack.None?)
            && (joining.Entering? && !ok ==>
                  after.sessions[s].joining.Idle? && ack == if joining.wantsAck then Some(Unable) else None)
            && (joining.Entering? && ok ==>
                  var q := Request(s, joining.id, joining.role, joining.offer, joining.wantsAck);
                  var outcome := SeatResult(r, s, q.id, q.role, q.offer, now).1;
                  && (after.sessions[s].joining.Idle? ==>
                        && Seated(outcome) && after.sessions[s].current == Some(q.id)
                        && ack == if q.wantsAck then Some(Answered(outcome)) else None)
                  && (!after.sessions[s].joining.Idle? ==> Carries(after.sessions[s].joining, q, outcome, false)))
  {
    hide Seat, SeatResult, SeatAck, Shape;
    var joining := r.sessions[s].joining;
    if joining.Entering? {
      SeatDeserves(r, s, joining.id, joining.role, joining.offer, joining.switching, true, joining.wantsAck, now);
    }
    hide Deserves, Admits;
  }

  lemma RoomLeftMoves(r: Relay, s: SocketId, ok: bool, now: nat, q: Request, outcome: JoinResult, stumbled: bool)
    requires r.m.RefsOk() && s in r.sessions && s == q.s
    requires r.sessions[s].joining.Entering? || Carries(r.sessions[s].joining, q, outcome, stumbled)
    ensures var ack, after := OnRoomLeftAck(r, s, ok), OnRoomLeft(r, s, ok, now);
            && s in after.sessions
            && (ack.Some? ==> after.sessions[s].joining.Idle?)
            && (r.sessions[s].joining.Entering? ==> after == r)
            && (!r.sessions[s].joining.Entering? ==>
                  if after.sessions[s].joining.Idle? then
                    && (ok || stumbled)
                    && ack == (if !q.wantsAck then None else Some(if stumbled then Unable else Answered(outcome)))
                    && (Seated(outcome) && !stumbled ==> after.sessions[s].current == Some(q.id))
                  else !ok && Carries(after.sessions[s].joining, q, outcome, true))
  {
    hide Leave, Settle;
  }

  lemma StumblesNext(run: seq<Timed>, s: SocketId, j: nat, x: nat)
    requires j < x < |run|
    ensures Stumbles(run, s, j, x + 1) <==> Stumbles(run, s, j, x) || run[x].event == RoomLeft(s, false)
  {
  }

  lemma NoStumbleYet(run: seq<Timed>, s: SocketId, j: nat)
    requires j < |run|
    ensures !Stumbles(run, s, j, j + 1)
  {
  }

  /** How far a join that is still open has come: it waits for the room, or it was decided when it got in. */
  ghost predicate Stands(limits: Limits, run: seq<Timed>, i: nat, x: nat, q: Request, entered: Option<nat>)
    requires x <= |run|
  {
    && q.s in StateAt(limits, run, x).sessions
    && var joining := StateAt(limits, run, x).sessions[q.s].joining;
       match entered
       case None =>
         && joining.Entering? && joining.id == q.id && joining.role == q.role && joining.offer == q.offer
         && joining.wantsAck == q.wantsAck
         && forall y :: i < y < x ==> !(run[y].event.RoomEntered? && run[y].event.s == q.s)
       case Some(j) =>
         && Enters(run, q.s, i, j) && j < x && run[j].event.ok && q.s in StateAt(limits, run, j).sessions
         && Carries(joining, q, OutcomeAt(limits, run, j, q), Stumbles(run, q.s, j, x))
  }

  lemma OpensStanding(limits: Limits, run: seq<Timed>, i: nat, q: Request)
    requires i < |run| && Opens(limits, run, i, q)
    ensures Stands(limits, run, i, i + 1, q, None)
    ensures JoinAckAt(StateAt(limits, run, i), run[i].event, StateAt(limits, run, i).clock + run[i].elapsed).None?
  {
    hide StateAt, Handle, Deserves, JoinAckAt, Inv, Shape, AtItsCap;
    var r := StateAt(limits, run, i);
    var now := r.clock + run[i].elapsed;
    StateAtShape(limits, run, i, now);
    StateNext(limits, run, i);
    JoinAnsweredAtOnce(r, run[i].event, now);
    hide TakenUp;
  }

  lemma StateAtShape(limits: Limits, run: seq<Timed>, k: nat, now: nat)
    requires k <= |run| && StateAt(limits, run, k).clock <= now
    ensures Inv(StateAt(limits, run, k), now) && Shape(StateAt(limits, run, k).m, now)
  {
    hide StateAt;
    StateAtInv(limits, run, k);
    InvLater(StateAt(limits, run, k), StateAt(limits, run, k).clock, now);
  }

  /** One more event of a join that stays open tells the client nothing yet. */
  lemma StandsOn(limits: Limits, run: seq<Timed>, i: nat, x: nat, q: Request, entered: Option<nat>)
    returns (next: Option<nat>)
    requires i < x < |run| && Stands(limits, run, i, x, q, entered)
    requires Busy(limits, run, x, q.s) && Busy(limits, run, x + 1, q.s)
    ensures Stands(limits, run, i, x + 1, q, next)
    ensures var r := StateAt(limits, run, x);
            Resumes(run[x].event, q.s) ==> JoinAckAt(r, run[x].event, r.clock + run[x].elapsed).None?
  {
    hide StateAt, Inv, Shape, Handle, OnRoomEnteredAck, OnRoomLeftAck, SeatResult, Stumbles;
    var r, e := StateAt(limits, run, x), run[x].event;
    var now := r.clock + run[x].elapsed;
    StateAtShape(limits, run, x, now);
    StateNext(limits, run, x);
    next := entered;
    if entered.Some? {
      StumblesNext(run, q.s, entered.value, x);
    }
    if !Resumes(e, q.s) {
      OthersKeepJoining(r, e, q.s, now);
    } else {
      ResumedHandle(r, e, now);
      if e.RoomEntered? {
        RoomEnteredMoves(r, q.s, e.ok, now);
        if entered.None? {
          next := Some(x);
          NoStumbleYet(run, q.s, x);
        }
      } else {
        var outcome := if entered.Some? then OutcomeAt(limits, run, entered.value, q) else Refused(ChannelFull);
        RoomLeftMoves(r, q.s, e.ok, now, q, outcome, entered.Some? && Stumbles(run, q.s, entered.value, x));
      }
    }
  }

  lemma ResumedHandle(r: Relay, e: Event, now: nat)
    requires r.m.RefsOk() && (e.RoomEntered? || e.RoomLeft?)
    ensures Handle(r, e, now) ==
            if e.RoomEntered? then OnRoomEntered(r, e.s, e.ok, now) else OnRoomLeft(r, e.s, e.ok, now)
    ensures JoinAckAt(r, e, now) ==
            if e.RoomEntered? then OnRoomEnteredAck(r, e.s, e.ok, now) else OnRoomLeftAck(r, e.s, e.ok)
  {
  }

  ghost predicate SaysNothing(limits: Limits, run: seq<Timed>, x: nat)
    requires x < |run|
  {
    var r := StateAt(limits, run, x);
    JoinAckAt(r, run[x].event, r.clock + run[x].elapsed).None?
  }

  lemma {:induction false} OpenStands(limits: Limits, run: seq<Timed>, i: nat, x: nat, q: Request)
    returns (entered: Option<nat>)
    requires i < x <= |run| && Opens(limits, run, i, q) && StillOpen(limits, run, i, x, q.s)
    ensures Stands(limits, run, i, x, q, entered)
    ensures SaysNothing(limits, run, i)
    ensures forall y :: i < y < x && Resumes(run[y].event, q.s) ==> SaysNothing(limits, run, y)
    decreases x
  {
    hide Opens, Stands, StateAt, JoinAckAt, Busy;
    OpensStanding(limits, run, i, q);
    if x == i + 1 {
      entered := None;
    } else {
      var before := OpenStands(limits, run, i, x - 1, q);
      assert Busy(limits, run, x - 1, q.s) && Busy(limits, run, x, q.s);
      entered := StandsOn(limits, run, i, x - 1, q, before);
    }
  }

  /** Whatever happens in between, a join that has to enter the room gets one answer, at the event that ends it: that it
      was unable to if the room could not be entered or one not be left, and otherwise what it deserved when it got in.
      Then it has its seat if nothing stood against it. */
  lemma JoinAnsweredOnce(limits: Limits, run: seq<Timed>, i: nat, k: nat, q: Request) returns (j: nat)
    requires i < k < |run| && Opens(limits, run, i, q) && StillOpen(limits, run, i, k, q.s)
    requires q.s in StateAt(limits, run, k + 1).sessions && !Busy(limits, run, k + 1, q.s)
    ensures Enters(run, q.s, i, j) && j <= k && q.s in StateAt(limits, run, j).sessions
    ensures SaysNothing(limits, run, i)
    ensures forall y :: i < y < k && Resumes(run[y].event, q.s) ==> SaysNothing(limits, run, y)
    ensures Resumes(run[k].event, q.s)
    ensures var last, inside := StateAt(limits, run, k), StateAt(limits, run, j);
            var ack := JoinAckAt(last, run[k].event, last.clock + run[k].elapsed);
            var ip, active := inside.sessions[q.s].ip, inside.sockets.Keys;
            var failed := !run[j].event.ok || Stumbles(run, q.s, j, k + 1);
            && (!q.wantsAck ==> ack.None?)
            && (q.wantsAck && failed ==> ack == Some(Unable))
            && (q.wantsAck && !failed ==>
                  && ack.Some? && ack.value.Answered?
                  && Deserves(inside.m, q.id, q.s, q.role, q.offer, ip, active, ack.value.result))
            && (!failed && Admits(inside.m, q.id, q.s, q.role, q.offer, Some(ip), active) ==>
                  StateAt(limits, run, k + 1).sessions[q.s].current == Some(q.id))
  {
    hide StateAt, Inv, Shape, Handle, OnRoomEnteredAck, OnRoomLeftAck, SeatResult, Stumbles, Deserves, Admits,
         JoinAckAt, Opens;
    var r, e := StateAt(limits, run, k), run[k].event;
    var now := r.clock + run[k].elapsed;
    var entered := OpenStands(limits, run, i, k, q);
    assert Busy(limits, run, k, q.s);
    StateAtShape(limits, run, k, now);
    StateNext(limits, run, k);
    if !Resumes(e, q.s) {
      OthersKeepJoining(r, e, q.s, now);
      assert false;
    }
    ResumedHandle(r, e, now);
    if entered.Some? {
      j := entered.value;
      StumblesNext(run, q.s, j, k);
      OutcomeDeserves(limits, run, j, q);
      RoomEnteredMoves(r, q.s, e.ok, now);
      RoomLeftMoves(r, q.s, e.ok, now, q, OutcomeAt(limits, run, j, q), Stumbles(run, q.s, j, k));
    } else {
      j := k;
      NoStumbleYet(run, q.s, k);
      OutcomeDeserves(limits, run, k, q);
      if e.RoomLeft? {
        assert false;
      }
      RoomEnteredMoves(r, q.s, e.ok, now);
    }
  }

  lemma ResultDeserves(r: Relay, q: Request, now: nat)
    requires r.m.RefsOk() && Shape(r.m, now) && q.s in r.sessions
    ensures var outcome, ip := SeatResult(r, q.s, q.id, q.role, q.offer, now).1, r.sessions[q.s].ip;
            && Deserves(r.m, q.id, q.s, q.role, q.offer, ip, r.sockets.Keys, outcome)
            && (Seated(outcome) <==> Admits(r.m, q.id, q.s, q.role, q.offer, Some(ip), r.sockets.Keys))
  {
    hide Join, Shape, Deserves, Admits;
    JoinDeserves(r.m, q.id, q.s, q.role, q.offer, r.sessions[q.s].ip, r.sockets.Keys, now);
    JoinSucceedsIff(r.m, q.id, q.s, q.role, q.offer, Some(r.sessions[q.s].ip), r.sockets.Keys, now);
  }

  lemma OutcomeDeserves(limits: Limits, run: seq<Timed>, j: nat, q: Request)
    requires j < |run| && q.s in StateAt(limits, run, j).sessions
    ensures var r, outcome := StateAt(limits, run, j), OutcomeAt(limits, run, j, q);
            && Deserves(r.m, q.id, q.s, q.role, q.offer, r.sessions[q.s].ip, r.sockets.Keys, outcome)
            && (Seated(outcome) <==>
                  Admits(r.m, q.id, q.s, q.role, q.offer, Some(r.sessions[q.s].ip), r.sockets.Keys))
  {
    hide StateAt, Inv, Shape, Deserves, Admits, SeatResult;
    var r := StateAt(limits, run, j);
    var now := r.clock + run[j].elapsed;
    StateAtShape(limits, run, j, now);
    ResultDeserves(r, q, now);
  }

  // ---------- Whose address is charged ----------

  lemma SeatKeepsAddress(r: Relay, s: SocketId, id: ChannelId, role: ClientType, offer: KeyOffer,
                         switching: bool, inRoom: bool, wantsAck: bool, now: nat)
    requires r.m.RefsOk() && s in r.sessions
    ensures var after := Seat(r, s, id, role, offer, switching, inRoom, wantsAck, now);
            s in after.sessions && after.sessions[s].ip == r.sessions[s].ip
  {
    hide Join, Leave, Post, BatchStanding;
  }

  lemma OwnEventsKeepAddress(r: Relay, e: Event, now: nat)
    requires r.m.RefsOk() && (e.JoinChannel? || e.RoomEntered? || e.RoomLeft?) && e.s in r.sessions
    ensures var after := Handle(r, e, now); e.s in after.sessions && after.sessions[e.s].ip == r.sessions[e.s].ip
  {
    hide Seat, Leave, LiveIds, Settle;
    var joining := r.sessions[e.s].joining;
    if e.JoinChannel? {
      SeatKeepsAddress(r, e.s, e.id, e.role, e.offer, false, false, e.wantsAck, now);
    } else if joining.Entering? {
      SeatKeepsAddress(r, e.s, joining.id, joining.role, joining.offer, joining.switching, true, joining.wantsAck, now);
    }
  }

  lemma StepKeepsAddress(r: Relay, e: Event, s: SocketId, now: nat)
    requires r.m.RefsOk() && s in r.sessions
    ensures var after := Handle(r, e, now); s in after.sessions && after.sessions[s].ip == r.sessions[s].ip
  {
    hide OnMessage, OnReady, Disconnect, OnJoin, OnRoomEntered, OnRoomLeft, Leave, Close, OnDrain, Cleanup;
    if e.MessageSent? {
      MessageKeepsSessions(r, e.s, e.id, e.data, now);
    } else if e.Readied? {
      ReadyKeepsSessions(r, e.s, now);
    } else if e.Disconnected? {
      DisconnectKeepsSessions(r, e.s, now);
    } else if e.Drained? {
      QuietKeepsSessions(r, e.s);
    } else if e.JoinChannel? || e.RoomEntered? || e.RoomLeft? {
      if e.s == s {
        OwnEventsKeepAddress(r, e, now);
      } else {
        JoiningKeepsOthers(r, e, s, now);
      }
    }
  }

  lemma QuietKeepsSessions(r: Relay, s: SocketId)
    ensures OnDrain(r, s).sessions == r.sessions
  {
  }

  /** Whatever a socket does is charged to the address it connected from. */
  lemma {:induction false} AddressStays(limits: Limits, run: seq<Timed>, i: nat, k: nat, s: SocketId, ip: Ip,
                                        writable: bool)
    requires i < k <= |run| && run[i].event == Connected(s, ip, writable) && s !in StateAt(limits, run, i).sessions
    ensures s in StateAt(limits, run, k).sessions && StateAt(limits, run, k).sessions[s].ip == ip
    decreases k
  {
    hide StateAt, Handle;
    var before := StateAt(limits, run, k - 1);
    var now := before.clock + run[k - 1].elapsed;
    StateNext(limits, run, k - 1);
    if k == i + 1 {
      ConnectedFrom(before, s, ip, writable, now);
    } else {
      AddressStays(limits, run, i, k - 1, s, ip, writable);
      StepKeepsAddress(before, run[k - 1].event, s, now);
    }
  }

  lemma ConnectedFrom(r: Relay, s: SocketId, ip: Ip, writable: bool, now: nat)
    requires r.m.RefsOk() && s !in r.sessions
    ensures var after := Handle(r, Connected(s, ip, writable), now);
            && s in after.sockets && s in after.sessions && after.sessions[s] == Session(ip, None, Idle)
            && after.m == r.m
  {
  }
}
