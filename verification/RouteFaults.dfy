/**
 When routing refuses a message and with which error, told by who is seated,
 what was numbered before and what the channel, the sender's address and the
 relay hold; and that every other message is recorded.
 */
module RouteFaults {
  import opened Options
  import opened RelayTypes
  import opened Ledgers
  import opened ManagerSpec
  import opened Conservation
  import opened ManagerSafety
  import opened ManagerOps
  import opened ManagerRouting
  import opened ManagerEffects
  import opened ManagerAnswers

  /** What stays buffered when one more message arrives: at the count cap the oldest makes room. */
  function Kept(buffer: seq<Message>): seq<Message> {
    if |buffer| >= MAX_BUFFERED_MESSAGES then buffer[1..] else buffer
  }

  /** Bytes that would be held for the channel object beside a newly buffered message. */
  ghost function HeldOn(m: Manager, ref: nat): nat
    requires ref < |m.store|
  {
    Bytes(Kept(m.store[ref].buffer), None) + Reserved(m.deliveries, OnChannel(ref))
  }

  /** Bytes that would be held for an address, or for everyone, beside a message newly buffered on the object. */
  ghost function HeldFor(m: Manager, ref: nat, ip: Option<Ip>): nat
    requires ref < |m.store|
  {
    var c := m.store[ref];
    StoreBytes(m.store[ref := c.(buffer := Kept(c.buffer))], ip) +
    Reserved(m.deliveries, match ip case None => Everything case Some(a) => FromIp(a))
  }

  /** What is wrong with a message, whatever else may be wrong with it. */
  ghost predicate RouteFault(m: Manager, id: ChannelId, s: SocketId, data: Payload, ip: Ip, error: RouteError)
    requires m.RefsOk()
  {
    match error
    case ChannelNotFound => id !in m.channels
    case ChannelTerminated => id in m.channels && m.At(id).terminated
    case SenderNotInChannel => id in m.channels && s !in m.At(id).participants
    case WrongClientType => SeatedAt(m, id, s) && m.At(id).participants[s] != data.clientType
    case Replayed =>
      && id in m.channels && data.seqNo.Some?
      && s in m.At(id).seqNumbers && data.seqNo.value <= m.At(id).seqNumbers[s]
    case NotSerializable => data.bytes.None?
    case ChannelBudget =>
      id in m.channels && data.bytes.Some? && HeldOn(m, m.channels[id]) + data.bytes.value > m.limits.perChannel
    case IpBudget =>
      id in m.channels && data.bytes.Some? && HeldFor(m, m.channels[id], Some(ip)) + data.bytes.value > m.limits.perIp
    case GlobalBudget =>
      id in m.channels && data.bytes.Some? && HeldFor(m, m.channels[id], None) + data.bytes.value > m.limits.total
  }

  /** The order in which faults are reported. */
  function RouteRank(error: RouteError): nat {
    match error
    case ChannelNotFound => 0
    case ChannelTerminated => 1
    case SenderNotInChannel => 2
    case WrongClientType => 3
    case Replayed => 4
    case NotSerializable => 5
    case ChannelBudget => 6
    case IpBudget => 7
    case GlobalBudget => 8
  }

  ghost predicate Faultless(m: Manager, id: ChannelId, s: SocketId, data: Payload, ip: Ip)
    requires m.RefsOk()
  {
    forall e :: !RouteFault(m, id, s, data, ip, e)
  }

  ghost predicate FirstRouteFault(m: Manager, id: ChannelId, s: SocketId, data: Payload, ip: Ip, error: RouteError)
    requires m.RefsOk()
  {
    && RouteFault(m, id, s, data, ip, error)
    && forall e :: RouteFault(m, id, s, data, ip, e) ==> RouteRank(error) <= RouteRank(e)
  }

  // ---------- Budgets as sums ----------

  lemma KeptBytes(buffer: seq<Message>, ip: Option<Ip>)
    ensures Bytes(Kept(buffer), ip) ==
            Bytes(buffer, ip) - (if |buffer| >= MAX_BUFFERED_MESSAGES then Weight(buffer[0], ip) else 0)
  {
    if |buffer| >= MAX_BUFFERED_MESSAGES {
      BytesWithout(buffer, 0, ip);
      assert Without(buffer, 0) == buffer[1..];
    }
  }

  lemma HeldSums(m: Manager, ref: nat, ip: Ip)
    requires ref < |m.store| && Conserved(m)
    ensures var c := m.store[ref];
            var freed: nat := if |c.buffer| >= MAX_BUFFERED_MESSAGES then c.buffer[0].size else 0;
            && HeldOn(m, ref) == c.bufferedBytes + c.inflightBytes - freed
            && HeldFor(m, ref, Some(ip)) ==
               AtIp(m.ledger.byIp, ip) - (if freed > 0 && c.buffer[0].sourceIp == ip then freed else 0)
            && HeldFor(m, ref, None) == m.ledger.buffered + m.ledger.inflight - freed
  {
    var c := m.store[ref];
    assert IpBalanced(m, ip);
    KeptBytes(c.buffer, None);
    KeptBytes(c.buffer, Some(ip));
    StoreBytesUpdate(m.store, ref, c.(buffer := Kept(c.buffer)), None);
    StoreBytesUpdate(m.store, ref, c.(buffer := Kept(c.buffer)), Some(ip));
    hide StoreBytes, Reserved, Bytes, Kept;
  }

  lemma BudgetErrorIs(m: Manager, ref: nat, size: nat, ip: Ip)
    requires ref < |m.store| && Conserved(m)
    ensures BudgetError(m, ref, size, ip) ==
            if HeldOn(m, ref) + size > m.limits.perChannel then Some(ChannelBudget)
            else if HeldFor(m, ref, Some(ip)) + size > m.limits.perIp then Some(IpBudget)
            else if HeldFor(m, ref, None) + size > m.limits.total then Some(GlobalBudget)
            else None
  {
    hide Conserved, HeldOn, HeldFor;
    HeldSums(m, ref, ip);
  }

  /** What fits beside everything held fits all the more once the oldest message made room. */
  lemma FittingBreaksNoBudget(m: Manager, ref: nat, size: nat, ip: Ip)
    requires ref < |m.store|
    ensures Fits(m, ref, size, ip) ==> BudgetError(m, ref, size, ip).None?
  {
  }

  // ---------- Routing ----------

  /** The error of a dispatch is the budget it would break, whichever way the message would go. */
  lemma DispatchError(m: Manager, ref: nat, s: SocketId, msg: Message, receivable: set<SocketId>)
    requires ref < |m.store|
    ensures Dispatch(m, ref, s, msg, receivable).1.error == BudgetError(m, ref, msg.size, msg.sourceIp)
  {
    hide BudgetError, Fits, WithdrawAt, Append, Sequenced, Reserve, Counterpart;
    FittingBreaksNoBudget(m, ref, msg.size, msg.sourceIp);
  }

  lemma TouchingBreaksNoBudget(m: Manager, ref: nat, now: nat, size: nat, ip: Ip)
    requires ref < |m.store|
    ensures BudgetError(m.Put(ref, m.store[ref].(lastActivity := now)), ref, size, ip) == BudgetError(m, ref, size, ip)
  {
  }

  /** The error of a message that names a live channel with its sender in the role it claims. */
  lemma SeatedError(m: Manager, id: ChannelId, s: SocketId, data: Payload, ip: Ip, receivable: set<SocketId>, now: nat)
    requires m.RefsOk() && SeatedAt(m, id, s) && !m.At(id).terminated && m.At(id).participants[s] == data.clientType
    ensures Route(m, id, s, data, ip, receivable, now).1.error ==
            if Replays(m.At(id), s, data.seqNo) then Some(Replayed)
            else if data.bytes.None? then Some(NotSerializable)
            else BudgetError(m, m.channels[id], data.bytes.value, ip)
  {
    hide Dispatch, BudgetError;
    if data.bytes.Some? {
      var ref, c := m.channels[id], m.At(id);
      var msg := Message(data, Other(c.participants[s]), now, data.bytes.value, ip);
      DispatchError(m.Put(ref, c.(lastActivity := now)), ref, s, msg, receivable);
      TouchingBreaksNoBudget(m, ref, now, data.bytes.value, ip);
    }
  }

  ghost function EarliestFault(m: Manager, id: ChannelId, s: SocketId, data: Payload, ip: Ip)
    : (first: Option<RouteError>)
    requires m.RefsOk()
    ensures first.None? ==> Faultless(m, id, s, data, ip)
    ensures first.Some? ==> FirstRouteFault(m, id, s, data, ip, first.value)
  {
    if RouteFault(m, id, s, data, ip, ChannelNotFound) then Some(ChannelNotFound)
    else if RouteFault(m, id, s, data, ip, ChannelTerminated) then Some(ChannelTerminated)
    else if RouteFault(m, id, s, data, ip, SenderNotInChannel) then Some(SenderNotInChannel)
    else if RouteFault(m, id, s, data, ip, WrongClientType) then Some(WrongClientType)
    else if RouteFault(m, id, s, data, ip, Replayed) then Some(Replayed)
    else if RouteFault(m, id, s, data, ip, NotSerializable) then Some(NotSerializable)
    else if RouteFault(m, id, s, data, ip, ChannelBudget) then Some(ChannelBudget)
    else if RouteFault(m, id, s, data, ip, IpBudget) then Some(IpBudget)
    else if RouteFault(m, id, s, data, ip, GlobalBudget) then Some(GlobalBudget)
    else None
  }

  lemma RouteReportsEarliest(m: Manager, id: ChannelId, s: SocketId, data: Payload, ip: Ip, receivable: set<SocketId>,
                             now: nat)
    requires m.RefsOk() && Conserved(m)
    ensures Route(m, id, s, data, ip, receivable, now).1.error == EarliestFault(m, id, s, data, ip)
  {
    hide Conserved, Dispatch, BudgetError, HeldOn, HeldFor;
    if SeatedAt(m, id, s) && data.bytes.Some? {
      BudgetErrorIs(m, m.channels[id], data.bytes.value, ip);
    }
    if SeatedAt(m, id, s) && !m.At(id).terminated && m.At(id).participants[s] == data.clientType {
      SeatedError(m, id, s, data, ip, receivable, now);
      hide Route;
    }
  }

  /** A message is refused with an error exactly when that is the first fault it has, wherever it would have gone. */
  lemma RouteRefusedIff(m: Manager, id: ChannelId, s: SocketId, data: Payload, ip: Ip, receivable: set<SocketId>,
                        now: nat, error: RouteError)
    requires m.RefsOk() && Conserved(m)
    ensures Route(m, id, s, data, ip, receivable, now).1.error == Some(error) <==>
              FirstRouteFault(m, id, s, data, ip, error)
  {
    hide Conserved, Route, RouteFault, EarliestFault;
    RouteReportsEarliest(m, id, s, data, ip, receivable, now);
    var first := EarliestFault(m, id, s, data, ip);
    if first.Some? {
      assert RouteFault(m, id, s, data, ip, first.value);
    }
  }

  /** A message is accepted exactly when nothing is wrong with it. */
  lemma RouteAcceptedIff(m: Manager, id: ChannelId, s: SocketId, data: Payload, ip: Ip, receivable: set<SocketId>,
                         now: nat)
    requires m.RefsOk() && Conserved(m)
    ensures Route(m, id, s, data, ip, receivable, now).1.error.None? <==> Faultless(m, id, s, data, ip)
  {
    hide Conserved, Route, RouteFault, EarliestFault;
    RouteReportsEarliest(m, id, s, data, ip, receivable, now);
    var first := EarliestFault(m, id, s, data, ip);
    if first.Some? {
      assert RouteFault(m, id, s, data, ip, first.value);
    }
  }

  // ---------- Writing at once ----------

  /** All that is held already leaves room for so many more bytes of the address. */
  ghost predicate RoomBesideAll(m: Manager, ref: nat, size: nat, ip: Ip)
    requires ref < |m.store|
  {
    && Bytes(m.store[ref].buffer, None) + Reserved(m.deliveries, OnChannel(ref)) + size <= m.limits.perChannel
    && StoreBytes(m.store, Some(ip)) + Reserved(m.deliveries, FromIp(ip)) + size <= m.limits.perIp
    && StoreBytes(m.store, None) + Reserved(m.deliveries, Everything) + size <= m.limits.total
  }

  lemma FitsBesideAll(m: Manager, ref: nat, size: nat, ip: Ip)
    requires ref < |m.store| && Conserved(m)
    ensures Fits(m, ref, size, ip) <==> RoomBesideAll(m, ref, size, ip)
  {
    assert IpBalanced(m, ip);
    hide StoreBytes, Reserved, Bytes;
  }

  /** A faultless message is written at once exactly when its counterparty can take a write, has none outstanding, and
      there is room for it beside everything held, without any eviction. */
  lemma WritesNowIff(m: Manager, id: ChannelId, s: SocketId, data: Payload, ip: Ip, receivable: set<SocketId>, now: nat)
    requires m.RefsOk() && Conserved(m) && Shape(m, now)
    ensures WritesNow(m, id, s, data, ip, receivable) <==>
              && Faultless(m, id, s, data, ip)
              && (exists t: SocketId :: SeatedAt(m, id, t) && t != s && t in receivable && t !in m.deliveries)
              && data.bytes.Some? && RoomBesideAll(m, m.channels[id], data.bytes.value, ip)
  {
    hide Conserved, Shape, BudgetError, HeldOn, HeldFor, RoomBesideAll, Fits, Route;
    RouteAcceptedIff(m, id, s, data, ip, receivable, now);
    if Faultless(m, id, s, data, ip) {
      assert !RouteFault(m, id, s, data, ip, ChannelNotFound) && !RouteFault(m, id, s, data, ip, NotSerializable);
      assert !RouteFault(m, id, s, data, ip, ChannelTerminated) && !RouteFault(m, id, s, data, ip, SenderNotInChannel);
      assert !RouteFault(m, id, s, data, ip, WrongClientType) && !RouteFault(m, id, s, data, ip, Replayed);
    }
    WritesDirectlyIff(m, id, s, data, ip, receivable, now);
    if id in m.channels && data.bytes.Some? {
      FitsBesideAll(m, m.channels[id], data.bytes.value, ip);
      FittingBreaksNoBudget(m, m.channels[id], data.bytes.value, ip);
    }
    if WritesNow(m, id, s, data, ip, receivable) {
      SeatedError(m, id, s, data, ip, receivable, now);
    }
  }
}
