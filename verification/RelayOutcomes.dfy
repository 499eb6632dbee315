/**
 What a handler's answer says about the relay it leaves behind: a message that
 was confirmed was written or queued, any other was not recorded; a confirmed
 close has buried the channel; whoever leaves or is gone has given up its seat;
 and a completed write is followed by the next message that waits.
 */
module RelayOutcomes {
  import opened Options
  import opened RelayTypes
  import opened Ledgers
  import opened ManagerSpec
  import opened Conservation
  import opened ManagerSafety
  import opened ManagerOps
  import opened ManagerRouting
  import opened ManagerEffects
  import opened ManagerAnswers
  import opened ManagerOutcomes
  import opened ManagerOrder
  import opened RouteFaults
  import opened DeliveryOrder
  import opened Mails
  import opened RelaySpec
  import opened RelaySafety
  import opened RelayMail
  import opened RelayHistory

  // ---------- message ----------

  /** The message as it is recorded. */
  function Recorded(data: Payload, ip: Ip, now: nat): Message
    requires data.bytes.Some?
  {
    Message(data, Other(data.clientType), now, data.bytes.value, ip)
  }

  ghost predicate SameMessages(c: Chan, d: Chan) {
    d.accepted == c.accepted && d.settled == c.settled && d.buffer == c.buffer
  }

  ghost predicate OthersUntouched(m: Manager, after: Manager, ref: nat) {
    && |after.store| == |m.store|
    && forall i :: 0 <= i < |m.store| && i != ref ==> SameMessages(m.store[i], after.store[i])
  }

  /** The channel has accepted the message and queued it last; at the cap the oldest was evicted. */
  ghost predicate QueuedIn(m: Manager, after: Manager, id: ChannelId, msg: Message)
    requires m.RefsOk()
  {
    && id in m.channels && OthersUntouched(m, after, m.channels[id])
    && var c, d := m.At(id), after.store[m.channels[id]];
       && d.accepted == c.accepted + [msg] && d.buffer == Kept(c.buffer) + [msg]
       && d.settled == c.settled + (if |c.buffer| < |d.buffer| then [] else [Settled(c.buffer[0], Evicted)])
  }

  /** The channel has accepted the message and written it to the counterparty. */
  ghost predicate WrittenFrom(m: Manager, after: Manager, id: ChannelId, msg: Message)
    requires m.RefsOk()
  {
    && id in m.channels && OthersUntouched(m, after, m.channels[id])
    && var c, d := m.At(id), after.store[m.channels[id]];
       && d.accepted == c.accepted + [msg] && d.buffer == c.buffer
       && d.settled == c.settled + [Settled(msg, Handed)]
  }

  /** The socket holds the one outstanding write of a counterparty that had none, and its completion is awaited. */
  ghost predicate WriteOutstanding(r: Relay, after: Relay, id: ChannelId, msg: Message, t: SocketId)
    requires r.m.RefsOk()
  {
    && SeatedAt(r.m, id, t) && r.m.At(id).participants[t] == msg.target && t !in r.m.deliveries
    && after.m.deliveries == r.m.deliveries[t := Reservation(r.m.channels[id], msg.sourceIp, msg.size)]
    && after.listeners == r.listeners[t := Draining]
  }

  /** Nothing is wrong with the message itself; only a budget can still refuse it. */
  ghost predicate Dispatched(m: Manager, id: ChannelId, s: SocketId, data: Payload, ip: Ip)
    requires m.RefsOk()
  {
    forall e :: RouteFault(m, id, s, data, ip, e) ==> RouteRank(e) >= RouteRank(ChannelBudget)
  }

  lemma DispatchedIff(m: Manager, id: ChannelId, s: SocketId, data: Payload, ip: Ip)
    requires m.RefsOk() && (id in m.channels ==> m.At(id).seqNumbers.Keys <= m.At(id).participants.Keys)
    ensures Dispatched(m, id, s, data, ip) <==>
              && SeatedAt(m, id, s) && !m.At(id).terminated && m.At(id).participants[s] == data.clientType
              && !Replays(m.At(id), s, data.seqNo) && data.bytes.Some?
  {
    hide HeldOn, HeldFor;
    if Dispatched(m, id, s, data, ip) {
      assert !RouteFault(m, id, s, data, ip, ChannelNotFound);
      assert !RouteFault(m, id, s, data, ip, ChannelTerminated);
      assert !RouteFault(m, id, s, data, ip, SenderNotInChannel);
      assert !RouteFault(m, id, s, data, ip, WrongClientType);
      assert !RouteFault(m, id, s, data, ip, Replayed);
      assert !RouteFault(m, id, s, data, ip, NotSerializable);
    }
  }

  /** A message that is not written names its counterparty, if there is one and only a budget stood against it. */
  lemma NamesSlow(m: Manager, id: ChannelId, s: SocketId, data: Payload, ip: Ip, receivable: set<SocketId>, now: nat)
    requires m.RefsOk() && Shape(m, now)
    ensures var result := Route(m, id, s, data, ip, receivable, now).1;
            forall t: SocketId :: result.backpressured == Some(t) <==>
              && Dispatched(m, id, s, data, ip) && !WritesNow(m, id, s, data, ip, receivable)
              && SeatedAt(m, id, t) && t != s
  {
    hide Shape, Dispatched, Fits, BudgetError;
    ShapeOfNamed(m, id, now);
    SeqsOfSeated(m, id, now);
    DispatchedIff(m, id, s, data, ip);
    WritesDirectlyIff(m, id, s, data, ip, receivable, now);
    hide WritesNow;
    if SeatedAt(m, id, s) && data.bytes.Some? {
      var ref, c := m.channels[id], m.At(id);
      var msg := Message(data, Other(c.participants[s]), now, data.bytes.value, ip);
      DispatchNames(m.Put(ref, c.(lastActivity := now)), ref, s, msg, receivable);
      CounterpartTakesOtherRole(c.participants, s);
      hide Dispatch, Counterpart;
    }
  }

  lemma SeqsOfSeated(m: Manager, id: ChannelId, now: nat)
    requires m.RefsOk() && Shape(m, now)
    ensures id in m.channels ==> m.At(id).seqNumbers.Keys <= m.At(id).participants.Keys
  {
    assert id in m.channels ==> ChanOk(m.At(id), now);
  }

  lemma DispatchNames(m: Manager, ref: nat, s: SocketId, msg: Message, receivable: set<SocketId>)
    requires ref < |m.store|
    ensures var result := Dispatch(m, ref, s, msg, receivable).1;
            result.backpressured == if result.target.Some? then None else Counterpart(m.store[ref].participants, s)
  {
    hide BudgetError, Fits, Reserve, WithdrawAt, Append, Sequenced, Counterpart;
  }

  lemma ReleaseKeepsMessages(m: Manager, s: SocketId)
    requires m.RefsOk()
    ensures SameQueues(m, Release(m, s))
  {
  }

  lemma LeaveKeepsMessages(m: Manager, s: SocketId, id: ChannelId, now: nat)
    requires m.RefsOk()
    ensures SameQueues(m, Leave(m, s, id, now).0)
  {
  }

  lemma DisconnectKeepsMessages(r: Relay, s: SocketId, now: nat)
    requires r.m.RefsOk()
    ensures SameQueues(r.m, Disconnect(r, s, now).m)
    ensures Disconnect(r, s, now).sockets == r.sockets - {s}
  {
    hide Release, Leave;
    ReleaseKeepsMessages(r.m, s);
    if s in r.sessions && r.sessions[s].current.Some? {
      LeaveKeepsMessages(Release(r.m, s), s, r.sessions[s].current.value, now);
    }
  }

  /** Routing records an accepted message in its own channel only, and a refused one nowhere. */
  lemma DirectSpares(m: Manager, ref: nat, s: SocketId, target: SocketId, msg: Message)
    requires ref < |m.store|
    ensures OthersUntouched(m, RouteDirect(m, ref, s, target, msg).0, ref)
  {
  }

  lemma BufferedSpares(m: Manager, ref: nat, s: SocketId, target: Option<SocketId>, msg: Message)
    requires ref < |m.store|
    ensures OthersUntouched(m, RouteBuffered(m, ref, s, target, msg).0, ref)
  {
    hide BudgetError;
  }

  lemma DispatchSpares(m: Manager, ref: nat, s: SocketId, msg: Message, receivable: set<SocketId>)
    requires ref < |m.store|
    ensures OthersUntouched(m, Dispatch(m, ref, s, msg, receivable).0, ref)
  {
    hide RouteDirect, RouteBuffered, Fits, Counterpart, OthersUntouched;
    var target := Counterpart(m.store[ref].participants, s);
    if target.Some? {
      DirectSpares(m, ref, s, target.value, msg);
    }
    BufferedSpares(m, ref, s, target, msg);
  }

  lemma RouteSpares(m: Manager, id: ChannelId, s: SocketId, data: Payload, ip: Ip, receivable: set<SocketId>, now: nat)
    requires m.RefsOk() && id in m.channels
    ensures OthersUntouched(m, Route(m, id, s, data, ip, receivable, now).0, m.channels[id])
  {
    hide Dispatch;
    if SeatedAt(m, id, s) && data.bytes.Some? {
      var ref, c := m.channels[id], m.At(id);
      var msg := Message(data, Other(c.participants[s]), now, data.bytes.value, ip);
      DispatchSpares(m.Put(ref, c.(lastActivity := now)), ref, s, msg, receivable);
    }
  }

  lemma TakenIsRecorded(c: Chan, d: Chan, msg: Message, direct: bool)
    requires Takes(c, d, msg, direct)
    ensures d.accepted == c.accepted + [msg]
    ensures direct ==> d.buffer == c.buffer && d.settled == c.settled + [Settled(msg, Handed)]
    ensures !direct ==>
              && d.buffer == Kept(c.buffer) + [msg]
              && d.settled == c.settled + (if |c.buffer| < |d.buffer| then [] else [Settled(c.buffer[0], Evicted)])
  {
  }

  /** Routing records an accepted message in its own channel only, and a refused one nowhere. */
  lemma RouteRecords(m: Manager, id: ChannelId, s: SocketId, data: Payload, ip: Ip, receivable: set<SocketId>, now: nat)
    requires m.RefsOk()
    ensures var (after, result) := Route(m, id, s, data, ip, receivable, now);
            if result.error.Some? then SameQueues(m, after)
            else
              && SeatedAt(m, id, s) && data.bytes.Some? && data.clientType == m.At(id).participants[s]
              && result.buffered == result.target.None?
              && if result.target.Some? then WrittenFrom(m, after, id, Recorded(data, ip, now))
                 else QueuedIn(m, after, id, Recorded(data, ip, now))
  {
    hide OthersUntouched, Takes, Dispatch;
    var (after, result) := Route(m, id, s, data, ip, receivable, now);
    if result.error.Some? {
      RejectedRouteOnlyTouches(m, id, s, data, ip, receivable, now);
    } else {
      RouteAnswers(m, id, s, data, ip, receivable, now);
      RouteEffect(m, id, s, data, ip, receivable, now);
      RouteSpares(m, id, s, data, ip, receivable, now);
      TakenIsRecorded(m.At(id), after.At(id), Recorded(data, ip, now), result.target.Some?);
    }
  }

  lemma SameQueuesAfter(m: Manager, mid: Manager, after: Manager)
    requires SameQueues(m, mid) && SameQueues(mid, after)
    ensures SameQueues(m, after)
  {
  }

  lemma QueuedAfter(m: Manager, mid: Manager, after: Manager, id: ChannelId, msg: Message)
    requires m.RefsOk() && QueuedIn(m, mid, id, msg) && SameQueues(mid, after)
    ensures QueuedIn(m, after, id, msg)
  {
  }

  /** Nothing is wrong with the message, its counterparty is connected, open and writable with no write outstanding, and
      there is room for it beside everything held. */
  ghost predicate Immediate(r: Relay, s: SocketId, id: ChannelId, data: Payload)
    requires r.m.RefsOk() && s in r.sessions
  {
    && Faultless(r.m, id, s, data, r.sessions[s].ip)
    && (exists t: SocketId :: && SeatedAt(r.m, id, t) && t != s && t !in r.m.deliveries
                              && t in r.sockets && r.sockets[t] == Conn(true, true, true))
    && data.bytes.Some? && RoomBesideAll(r.m, r.m.channels[id], data.bytes.value, r.sessions[s].ip)
  }

  lemma ImmediateIff(r: Relay, s: SocketId, id: ChannelId, data: Payload, now: nat)
    requires r.m.RefsOk() && Inv(r, now) && s in r.sessions
    ensures Immediate(r, s, id, data) <==> WritesNow(r.m, id, s, data, r.sessions[s].ip, r.Receivable())
  {
    hide Inv, Shape, Conserved, Faultless, RoomBesideAll, WritesNow, Relay.Receivable;
    InvParts(r, now);
    WritesNowIff(r.m, id, s, data, r.sessions[s].ip, r.Receivable(), now);
    forall t: SocketId | t !in r.m.deliveries
      ensures t in r.Receivable() <==> t in r.sockets && r.sockets[t] == Conn(true, true, true)
    {
      ReceivableIff(r, t);
    }
  }

  lemma ReceivableIff(r: Relay, t: SocketId)
    requires r.m.RefsOk() && Tidy(r) && t !in r.m.deliveries
    ensures t in r.Receivable() <==> t in r.sockets && r.sockets[t] == Conn(true, true, true)
  {
  }

  /** The counterparty is given up on: it could not be written to, and has no write outstanding whose completion would
      come for the message. */
  ghost predicate DropsSlow(r: Relay, s: SocketId, id: ChannelId, data: Payload, t: SocketId)
    requires r.m.RefsOk() && s in r.sessions
  {
    && Dispatched(r.m, id, s, data, r.sessions[s].ip) && !Immediate(r, s, id, data)
    && SeatedAt(r.m, id, t) && t != s && t !in r.m.deliveries
  }

  /** What the handler makes of the manager's result. */
  lemma ResultAcknowledged(r: Relay, s: SocketId, id: ChannelId, data: Payload, now: nat)
    requires r.m.RefsOk() && Tidy(r) && s in r.sockets && s in r.sessions
    ensures var (m', result) := Route(r.m, id, s, data, r.sessions[s].ip, r.Receivable(), now);
            var (after, ack) := OnMessage(r, s, id, data, now);
            var drops := result.backpressured.Some? && result.backpressured.value !in r.m.deliveries;
            && SameQueues(m', after.m)
            && (result.error.Some? ==> ack == Failed(result.error.value))
            && (result.error.None? ==> ack == Accepted(result.target.None?))
            && (result.target.Some? ==>
                  && result.error.None? && result.backpressured.None? && after.m == m'
                  && after.listeners == r.listeners[result.target.value := Draining])
            && after.sockets == if drops then r.sockets - {result.backpressured.value} else r.sockets
  {
    hide Route, Disconnect, Post, Tidy;
    var (m', result) := Route(r.m, id, s, data, r.sessions[s].ip, r.Receivable(), now);
    RouteReserves(r.m, id, s, data, r.sessions[s].ip, r.Receivable(), now);
    RouteRecords(r.m, id, s, data, r.sessions[s].ip, r.Receivable(), now);
    if result.target.Some? {
      DirectTargetArms(r, s, id, data, now);
      DirectMessage(r, s, id, data, now);
    }
    if result.backpressured.Some? {
      DisconnectKeepsMessages(r.(m := m'), result.backpressured.value, now);
    }
    hide QueuedIn, WrittenFrom;
  }

  /** A message is written, queued or not recorded: never two of these. */
  lemma OneRecord(m: Manager, after: Manager, id: ChannelId, msg: Message)
    requires m.RefsOk()
    ensures !(QueuedIn(m, after, id, msg) && WrittenFrom(m, after, id, msg))
    ensures SameQueues(m, after) ==> !QueuedIn(m, after, id, msg) && !WrittenFrom(m, after, id, msg)
  {
    if QueuedIn(m, after, id, msg) || WrittenFrom(m, after, id, msg) {
      var c, d := m.At(id), after.store[m.channels[id]];
      assert |d.accepted| == |c.accepted| + 1;
      if |c.settled| < |d.settled| {
        assert d.settled[|c.settled|].fate == if WrittenFrom(m, after, id, msg) then Handed else Evicted;
      }
    }
  }

  lemma InvParts(r: Relay, now: nat)
    requires Inv(r, now)
    ensures r.m.RefsOk() && Shape(r.m, now) && Conserved(r.m) && Tidy(r)
  {
  }

  lemma MessageRecorded(r: Relay, s: SocketId, id: ChannelId, data: Payload, now: nat)
    requires r.m.RefsOk() && Inv(r, now) && s in r.sockets && s in r.sessions
    ensures var (after, ack) := OnMessage(r, s, id, data, now);
            var ip := r.sessions[s].ip;
            && (ack.Accepted? ==> data.bytes.Some?)
            && (ack == Accepted(false) ==>
                  && WrittenFrom(r.m, after.m, id, Recorded(data, ip, now))
                  && exists t: SocketId :: t != s && WriteOutstanding(r, after, id, Recorded(data, ip, now), t))
            && (ack == Accepted(true) ==> QueuedIn(r.m, after.m, id, Recorded(data, ip, now)))
            && (ack.Failed? ==> SameQueues(r.m, after.m))
  {
    hide Route, Inv, Shape, Conserved, Tidy, OnMessage, QueuedIn, WrittenFrom, SameQueues;
    InvParts(r, now);
    var m, ip := r.m, r.sessions[s].ip;
    var (m', result) := Route(m, id, s, data, ip, r.Receivable(), now);
    var after := OnMessage(r, s, id, data, now).0;
    ResultAcknowledged(r, s, id, data, now);
    RouteRecords(m, id, s, data, ip, r.Receivable(), now);
    if result.error.Some? {
      SameQueuesAfter(m, m', after.m);
    } else if result.target.None? {
      QueuedAfter(m, m', after.m, id, Recorded(data, ip, now));
    } else {
      RouteReserves(m, id, s, data, ip, r.Receivable(), now);
      WritesDirectlyIff(m, id, s, data, ip, r.Receivable(), now);
      assert WriteOutstanding(r, after, id, Recorded(data, ip, now), result.target.value);
    }
  }

  /** A message is confirmed as written exactly when it could be and was, as queued exactly when it was faultless
      otherwise and is the last in the queue, and refused with its first fault else, leaving every channel's messages as
      they were. */
  lemma MessageAnswered(r: Relay, s: SocketId, id: ChannelId, data: Payload, now: nat)
    requires r.m.RefsOk() && Inv(r, now) && s in r.sockets && s in r.sessions
    ensures var (after, ack) := OnMessage(r, s, id, data, now);
            var m, ip := r.m, r.sessions[s].ip;
            && (ack.Accepted? || ack.Failed?)
            && (ack == Accepted(false) <==> Immediate(r, s, id, data))
            && (ack == Accepted(true) <==> Faultless(m, id, s, data, ip) && !Immediate(r, s, id, data))
            && (forall e :: ack == Failed(e) <==> FirstRouteFault(m, id, s, data, ip, e))
            && (ack == Accepted(false) <==>
                  && data.bytes.Some? && WrittenFrom(m, after.m, id, Recorded(data, ip, now))
                  && exists t: SocketId :: t != s && WriteOutstanding(r, after, id, Recorded(data, ip, now), t))
            && (ack == Accepted(true) <==> data.bytes.Some? && QueuedIn(m, after.m, id, Recorded(data, ip, now)))
            && (ack.Failed? <==> SameQueues(m, after.m))
            && (forall t: SocketId :: t in after.sockets <==> t in r.sockets && !DropsSlow(r, s, id, data, t))
  {
    hide Route, Inv, Shape, Conserved, Tidy, OnMessage, QueuedIn, WrittenFrom, SameQueues, WriteOutstanding, WritesNow,
         RouteFault, RouteRank, Dispatched, Immediate;
    InvParts(r, now);
    var m, ip := r.m, r.sessions[s].ip;
    var result := Route(m, id, s, data, ip, r.Receivable(), now).1;
    var after := OnMessage(r, s, id, data, now).0;
    ResultAcknowledged(r, s, id, data, now);
    WritesDirectlyIff(m, id, s, data, ip, r.Receivable(), now);
    RouteAcceptedIff(m, id, s, data, ip, r.Receivable(), now);
    forall e ensures result.error == Some(e) <==> FirstRouteFault(m, id, s, data, ip, e) {
      RouteRefusedIff(m, id, s, data, ip, r.Receivable(), now, e);
    }
    hide FirstRouteFault, Faultless;
    NamesSlow(m, id, s, data, ip, r.Receivable(), now);
    ImmediateIff(r, s, id, data, now);
    MessageRecorded(r, s, id, data, now);
    if data.bytes.Some? {
      OneRecord(m, after.m, id, Recorded(data, ip, now));
    }
  }

  // ---------- close_channel, leave_channel and disconnection ----------

  /** The channel a connected socket means: the one it names, or else its current one. */
  ghost predicate Means(r: Relay, s: SocketId, requested: Option<ChannelId>, id: ChannelId) {
    && s in r.sockets && s in r.sessions
    && (requested == Some(id) || (requested.None? && r.sessions[s].current == Some(id)))
  }

  lemma SeatIsLive(r: Relay, id: ChannelId, s: SocketId, now: nat)
    requires Inv(r, now)
    ensures SeatedAt(r.m, id, s) ==> r.m.Live(id)
  {
    hide Tidy, Lifecycle;
    if SeatedAt(r.m, id, s) {
      assert ChanOk(r.m.At(id), now);
    }
  }

  lemma LeftIsLive(m: Manager, s: SocketId, id: ChannelId, now: nat)
    requires m.RefsOk() && Sound(m, now)
    ensures var left := Leave(m, s, id, now).0;
            && Sound(left, now) && left.RefsOk()
            && forall x :: left.Live(x) <==> m.Live(x)
  {
    LeaveKeepsSound(m, s, id, now);
    hide Sound;
  }

  /** The channel is a tombstone from now on, no other one ends, and the socket has no current channel there. */
  ghost predicate ClosedBy(r: Relay, after: Relay, s: SocketId, id: ChannelId, now: nat)
    requires r.m.RefsOk() && after.m.RefsOk() && s in r.sessions
  {
    && BuriedAt(after.m, id, now)
    && (forall x :: x != id ==> (after.m.Live(x) <==> r.m.Live(x)))
    && s in after.sessions && after.sessions[s].current != Some(id)
    && (r.sessions[s].current != Some(id) ==> after.sessions[s] == r.sessions[s])
  }

  /** A close is confirmed exactly when the socket sits in the live channel it means, and then that channel is closed;
      otherwise nothing happens at all. */
  lemma CloseAnswered(r: Relay, s: SocketId, requested: Option<ChannelId>, now: nat)
    requires r.m.RefsOk() && Inv(r, now)
    ensures var (after, ok) := OnClose(r, s, requested, now);
            && (ok <==> exists id :: Means(r, s, requested, id) && r.m.Live(id) && SeatedAt(r.m, id, s))
            && (ok ==> forall id :: Means(r, s, requested, id) ==> ClosedBy(r, after, s, id, now))
            && (!ok ==> after == r)
  {
    hide Leave, Close, BuriedAt, Sound, Tidy;
    if s in r.sockets && s in r.sessions && Requested(r, s, requested).Some? {
      var id := Requested(r, s, requested).value;
      assert Means(r, s, requested, id);
      SeatIsLive(r, id, s, now);
      LeaveAnswers(r.m, s, id, now);
      LeftIsLive(r.m, s, id, now);
      CloseBuries(Leave(r.m, s, id, now).0, id, now);
    }
  }

  /** Leaving gives up the seat in the channel the socket means, and no other seat, and renews that channel's lease. */
  lemma LeaveObeyed(r: Relay, s: SocketId, requested: Option<ChannelId>, id: ChannelId, now: nat)
    requires r.m.RefsOk() && Means(r, s, requested, id)
    ensures var after := OnLeave(r, s, requested, now);
            && s in after.sessions && after.sessions[s].current != Some(id)
            && (r.sessions[s].current != Some(id) ==> after.sessions == r.sessions)
            && (forall x: ChannelId, t: SocketId :: SeatedAt(after.m, x, t) ==> SeatedAt(r.m, x, t))
            && !SeatedAt(after.m, id, s)
            && (forall x: ChannelId, t: SocketId :: SeatedAt(r.m, x, t) && t != s ==> SeatedAt(after.m, x, t))
            && (SeatedAt(r.m, id, s) ==> id in after.m.channels && after.m.At(id).lastActivity == now)
            && (!SeatedAt(r.m, id, s) ==> after.m == r.m)
            && after.m.deliveries == r.m.deliveries
  {
    hide Leave;
    LeaveAnswers(r.m, s, id, now);
    LeaveEffect(r.m, s, id, now);
  }

  /** A socket that is gone holds no reservation, no listener and no seat, but one it took in a join that has yet to
      leave its previous room; everyone else keeps theirs. */
  lemma DisconnectGivesUp(r: Relay, s: SocketId, now: nat)
    requires r.m.RefsOk() && Tidy(r) && s in r.sockets
    ensures var after := Disconnect(r, s, now);
            && after.sockets == r.sockets - {s} && after.sessions == r.sessions
            && after.m.deliveries == r.m.deliveries - {s} && after.listeners == r.listeners - {s}
            && (forall x: ChannelId :: SeatedAt(after.m, x, s) <==>
                  SeatedAt(r.m, x, s) && r.sessions[s].current != Some(x))
            && (forall x: ChannelId :: SeatedAt(after.m, x, s) ==>
                  r.sessions[s].joining.Departing? && r.sessions[s].joining.id == x)
            && (forall x: ChannelId, t: SocketId :: t != s ==> (SeatedAt(after.m, x, t) <==> SeatedAt(r.m, x, t)))
            && (forall x: ChannelId :: SeatedAt(r.m, x, s) && r.sessions[s].current == Some(x) ==>
                  x in after.m.channels && after.m.At(x).lastActivity == now)
  {
    hide Release, Leave, Tidy;
    var freed := Release(r.m, s);
    SeatsAtHome(r, s);
    ReleaseEffect(r.m, s);
    SameSeatsNoNew(r.m, freed);
    SameSeatsNoNew(freed, r.m);
    assert SameSeats(r.m, freed);
    if r.sessions[s].current.Some? {
      var id := r.sessions[s].current.value;
      LeaveAnswers(freed, s, id, now);
      LeaveEffect(freed, s, id, now);
      LeaveSparesOwn(freed, s, id, now);
    }
  }

  lemma SeatsAtHome(r: Relay, s: SocketId)
    requires r.m.RefsOk() && Tidy(r) && s in r.sockets
    ensures s in r.sessions && forall x: ChannelId :: SeatedAt(r.m, x, s) ==> Home(r.sessions[s]) == Some(x)
  {
  }

  /** Leaving one channel costs no seat in another. */
  lemma LeaveSparesOwn(m: Manager, s: SocketId, id: ChannelId, now: nat)
    requires m.RefsOk()
    requires forall x: ChannelId :: SeatedAt(m, id, s) && SeatedAt(m, x, s) ==> x == id
    ensures forall x: ChannelId :: x != id && SeatedAt(m, x, s) ==> SeatedAt(Leave(m, s, id, now).0, x, s)
  {
  }

  // ---------- The direct-delivery loop ----------

  /** The oldest message for the socket's role has left the channel's buffer into the socket's reservation. */
  ghost predicate WritesOldest(r: Relay, after: Relay, s: SocketId, ref: nat)
    requires ref < |r.m.store| && ref < |after.m.store| && s in r.m.store[ref].participants
  {
    var c, d := r.m.store[ref], after.m.store[ref];
    && after.listeners == r.listeners[s := Draining]
    && s in after.m.deliveries
    && exists i, msg :: && 0 <= i < |c.buffer| && c.buffer[i] == msg && msg.target == c.participants[s]
                        && (forall j :: 0 <= j < i ==> c.buffer[j].target != c.participants[s])
                        && d.buffer == Without(c.buffer, i)
                        && d.settled == c.settled + [Settled(msg, Promoted)]
                        && after.m.deliveries[s] == Reservation(ref, msg.sourceIp, msg.size)
  }

  ghost predicate SetFree(r: Relay, after: Relay, s: SocketId) {
    s !in after.listeners && s !in after.m.deliveries && SameQueues(r.m, after.m)
  }

  /** When a write has drained and the transport is ready again, the oldest message that waits for the socket on the
      channel of that write is written next, under a new wait for its completion; if none does, or the socket was
      unseated or its channel closed meanwhile, or its connection is gone, the socket is set free. While the transport
      is not writable after all, the wait goes on, as it does until it has drained. */
  lemma DrainedWritesNext(r: Relay, s: SocketId, now: nat)
    requires r.m.RefsOk() && Inv(r, now) && s in r.listeners
    ensures s in r.m.deliveries && s in r.sockets
    ensures var after, ref := OnReady(OnDrain(r, s), s, now), r.m.deliveries[s].channel;
            var c, conn := r.m.store[ref], r.sockets[s];
            if !conn.connected || !conn.open then SetFree(r, after, s)
            else if !conn.writable then after == r.(listeners := r.listeners[s := Readying])
            else if s in c.participants && !NoneFor(c.buffer, c.participants[s])
            then ref < |after.m.store| && WritesOldest(r, after, s, ref)
            else SetFree(r, after, s)
    ensures r.listeners[s] == Draining ==> OnReady(r, s, now) == r
  {
    hide Advance, Release, Tidy, NoneFor, Sound, SameQueues, OnReady, OnDrain, WritesOldest, SetFree;
    InvParts(r, now);
    DrainedFacts(r, s, now);
    DrainedOutcome(r, s, now);
    AdvancesIff(r, s);
    ReservedIsLive(r, s, now);
    if r.Alive(s) && r.sockets[s].writable && Advance(r.m, s).1.Some? {
      AdvancedWritesOldest(r, OnReady(OnDrain(r, s), s, now), s);
    }
  }

  lemma AdvancedWritesOldest(r: Relay, after: Relay, s: SocketId)
    requires r.m.RefsOk() && Advance(r.m, s).1.Some? && after.m == Advance(r.m, s).0
    requires after.listeners == r.listeners[s := Draining]
    ensures var ref := r.m.deliveries[s].channel; ref < |after.m.store| && WritesOldest(r, after, s, ref)
  {
    hide Advance;
    AdvanceAnswers(r.m, s);
  }

  lemma DrainedFacts(r: Relay, s: SocketId, now: nat)
    requires r.m.RefsOk() && Tidy(r) && s in r.listeners
    ensures r.listeners[s] == Draining ==> OnReady(r, s, now) == r
    ensures s in r.m.deliveries && s in r.sockets
    ensures var drained := OnDrain(r, s);
            && drained == r.(listeners := r.listeners[s := Readying]) && Coherent(drained)
  {
    if r.listeners[s] == Readying {
      assert r.listeners[s := Readying] == r.listeners;
    }
  }

  lemma DrainedOutcome(r: Relay, s: SocketId, now: nat)
    requires r.m.RefsOk() && Tidy(r) && s in r.listeners
    ensures var after := OnReady(OnDrain(r, s), s, now);
            if !r.Alive(s) then SetFree(r, after, s)
            else if !r.sockets[s].writable then after == OnDrain(r, s)
            else if Advance(r.m, s).1.Some?
            then after.listeners == r.listeners[s := Draining] && after.m == Advance(r.m, s).0
            else SetFree(r, after, s)
  {
    hide Advance, Release, Tidy, SameQueues, OnReady, OnDrain;
    DrainedFacts(r, s, now);
    OnReadyOutcome(OnDrain(r, s), s, now);
    ReleaseKeepsMessages(r.m, s);
    if r.Alive(s) && r.sockets[s].writable && Advance(r.m, s).1.None? {
      NothingAdvanced(OnDrain(r, s), s, now);
    }
  }

  /** A seated socket sits in a channel object that has not been closed. */
  lemma ReservedIsLive(r: Relay, s: SocketId, now: nat)
    requires r.m.RefsOk() && Inv(r, now) && s in r.m.deliveries
    ensures var c := r.m.store[r.m.deliveries[s].channel]; s in c.participants ==> !c.terminated
  {
    assert ChanOk(r.m.store[r.m.deliveries[s].channel], now);
  }

  lemma NothingAdvanced(r: Relay, s: SocketId, now: nat)
    requires r.m.RefsOk() && s in r.listeners && r.listeners[s] == Readying && r.Alive(s) && r.sockets[s].writable
    requires Advance(r.m, s).1.None?
    ensures SameQueues(r.m, OnReady(r, s, now).m)
  {
    hide Release;
    ReleaseKeepsMessages(r.m, s);
    ReleaseKeepsMessages(Release(r.m, s), s);
  }
}
