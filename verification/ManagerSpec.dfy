/**
 The channel manager as a state and its transitions. Channel objects live in
 `store` and are named by their index, because a reservation can outlive the
 map entry of the channel it points at.
 */
module ManagerSpec {
  import opened Options
  import opened RelayTypes
  import opened Ledgers

  /** `accepted` and `settled` are the model's history of what routing accepted and where it went. */
  datatype Chan = Chan(
    participants: map<SocketId, ClientType>,
    lastActivity: nat,
    buffer: seq<Message>,
    bufferedBytes: int,
    inflightBytes: int,
    seqNumbers: map<SocketId, nat>,
    publicKey: Option<Key>,
    terminated: bool,
    terminatedAt: nat,
    creatorIp: Option<Ip>,
    accepted: seq<Message>,
    settled: seq<Settled>)

  datatype Manager = Manager(
    limits: Limits,
    store: seq<Chan>,
    channels: map<ChannelId, nat>,
    terminatedOrder: seq<ChannelId>,
    ledger: Ledger,
    deliveries: map<SocketId, Reservation<nat>>)
  {
    ghost predicate RefsOk() {
      && (forall id :: id in channels ==> channels[id] < |store|)
      && (forall s :: s in deliveries ==> deliveries[s].channel < |store|)
    }

    function Put(ref: nat, c: Chan): Manager
      requires ref < |store|
    {
      this.(store := store[ref := c])
    }

    function At(id: ChannelId): Chan
      requires id in channels && channels[id] < |store|
    {
      store[channels[id]]
    }

    ghost predicate Live(id: ChannelId)
      requires RefsOk()
    {
      id in channels && !At(id).terminated
    }
  }

  function EmptyManager(limits: Limits): Manager {
    Manager(limits, [], map[], [], Ledger(0, 0, map[]), map[])
  }

  function FreshChan(creatorIp: Option<Ip>, now: nat): Chan {
    Chan(map[], now, [], 0, 0, map[], None, false, 0, creatorIp, [], [])
  }

  /** What a channel object has settled so far. */
  function Log(m: Manager, ref: nat): seq<Settled> {
    if ref < |m.store| then m.store[ref].settled else []
  }

  // ---------- Who is in a channel ----------

  /** Another socket holding `role`. */
  ghost function Rival(parts: map<SocketId, ClientType>, s: SocketId, role: ClientType): Option<SocketId> {
    if exists o :: o in parts && o != s && parts[o] == role
    then var o :| o in parts && o != s && parts[o] == role; Some(o)
    else None
  }

  /** The participant other than `s`. */
  ghost function Counterpart(parts: map<SocketId, ClientType>, s: SocketId): Option<SocketId> {
    if exists o :: o in parts && o != s then var o :| o in parts && o != s; Some(o) else None
  }

  /** The roles of everyone else in the channel. */
  ghost function Others(parts: map<SocketId, ClientType>, s: SocketId): seq<ClientType> {
    match Counterpart(parts, s)
    case None => []
    case Some(o) => [parts[o]]
  }

  // ---------- Reservations and buffers ----------

  /** Hand a socket's one live write to the transport's ledgers. */
  function Reserve(m: Manager, s: SocketId, r: Reservation<nat>): Manager
    requires r.channel < |m.store|
  {
    var c := m.store[r.channel];
    m.Put(r.channel, c.(inflightBytes := c.inflightBytes + r.size))
     .(deliveries := m.deliveries[s := r], ledger := RetainInflight(m.ledger, r.sourceIp, r.size))
  }

  function Release(m: Manager, s: SocketId): (after: Manager)
    requires m.RefsOk()
    ensures after.RefsOk()
  {
    if s !in m.deliveries then m
    else
      var r := m.deliveries[s];
      var c := m.store[r.channel];
      m.Put(r.channel, c.(inflightBytes := Max(0, c.inflightBytes - r.size)))
       .(deliveries := m.deliveries - {s}, ledger := ReleaseInflight(m.ledger, r.sourceIp, r.size))
  }

  /** Take `out` from a channel's buffer, leaving `keep`, and settle each message with `fate`. */
  function Withdraw(m: Manager, ref: nat, keep: seq<Message>, out: seq<Message>, fate: Fate): Manager
    requires ref < |m.store|
  {
    var c := m.store[ref];
    m.Put(ref, c.(buffer := keep,
                  bufferedBytes := ClampEach(c.bufferedBytes, out),
                  settled := c.settled + Tag(out, fate)))
     .(ledger := ReleaseEach(m.ledger, out))
  }

  function WithdrawPicked(m: Manager, ref: nat, sieve: Sieve, fate: Fate): Manager
    requires ref < |m.store|
  {
    var buffer := m.store[ref].buffer;
    Withdraw(m, ref, Pick(buffer, sieve, false), Pick(buffer, sieve, true), fate)
  }

  function WithdrawAt(m: Manager, ref: nat, i: nat, fate: Fate): Manager
    requires ref < |m.store| && i < |m.store[ref].buffer|
  {
    var buffer := m.store[ref].buffer;
    Withdraw(m, ref, Without(buffer, i), [buffer[i]], fate)
  }

  function Append(m: Manager, ref: nat, msg: Message): Manager
    requires ref < |m.store|
  {
    var c := m.store[ref];
    m.Put(ref, c.(buffer := c.buffer + [msg],
                  bufferedBytes := c.bufferedBytes + msg.size,
                  accepted := c.accepted + [msg]))
     .(ledger := RetainBuffered(m.ledger, msg.sourceIp, msg.size))
  }

  // ---------- join ----------

  ghost function CreatedBy(m: Manager, ip: Ip): set<ChannelId>
    requires m.RefsOk()
  {
    set id | id in m.channels && !m.At(id).terminated && m.At(id).creatorIp == Some(ip)
  }

  ghost function AtChannelCap(m: Manager, creatorIp: Option<Ip>): bool
    requires m.RefsOk()
  {
    && creatorIp.Some?
    && m.limits.maxChannelsPerIp.Some?
    && |CreatedBy(m, creatorIp.value)| >= m.limits.maxChannelsPerIp.value
  }

  function Allocate(m: Manager, id: ChannelId, creatorIp: Option<Ip>, now: nat): Manager {
    m.(store := m.store + [FreshChan(creatorIp, now)], channels := m.channels[id := |m.store|])
  }

  function RemoveParticipant(m: Manager, ref: nat, s: SocketId): Manager
    requires ref < |m.store|
  {
    var c := m.store[ref];
    m.Put(ref, c.(participants := c.participants - {s}, seqNumbers := c.seqNumbers - {s}))
  }

  /** Seat `s`, and withdraw what the buffer holds for its role. */
  ghost function Admit(m: Manager, ref: nat, s: SocketId, role: ClientType, key: Option<Key>, now: nat)
    : (r: (Manager, JoinResult))
    requires ref < |m.store|
    ensures m.RefsOk() ==> r.0.RefsOk()
  {
    var c := m.store[ref];
    var seated := c.(
      publicKey := if c.publicKey.None? then key else c.publicKey,
      participants := c.participants[s := role],
      lastActivity := now);
    (WithdrawPicked(m.Put(ref, seated), ref, ForRole(role), Returned),
     Joined(Payloads(For(c.buffer, role)), seated.publicKey, Others(seated.participants, s), false))
  }

  /** The checks that follow stale-participant removal. */
  ghost function AdmitUnlessFull(m: Manager, ref: nat, s: SocketId, role: ClientType, key: Option<Key>, now: nat)
    : (r: (Manager, JoinResult))
    requires ref < |m.store|
    ensures m.RefsOk() ==> r.0.RefsOk()
  {
    var c := m.store[ref];
    if s !in c.participants && |c.participants| >= MAX_PARTICIPANTS then (m, Refused(ChannelFull))
    else if key.Some? && c.publicKey.Some? && c.publicKey != key then (m, Refused(KeyMismatch))
    else Admit(m, ref, s, role, key, now)
  }

  ghost function JoinExisting(m: Manager, ref: nat, s: SocketId, role: ClientType, key: Option<Key>,
                              active: set<SocketId>, now: nat)
    : (r: (Manager, JoinResult))
    requires m.RefsOk() && ref < |m.store|
    ensures r.0.RefsOk()
  {
    var c := m.store[ref];
    if role.Dapp? && c.publicKey.Some? && key.None? then (m, Refused(KeyRequired))
    else if s in c.participants && c.participants[s] != role then (m, Refused(RoleChange))
    else
      match Rival(c.participants, s, role)
      case None => AdmitUnlessFull(m, ref, s, role, key, now)
      case Some(o) =>
        if o in active then (m, Refused(AlreadyConnected))
        else AdmitUnlessFull(Release(RemoveParticipant(m, ref, o), o), ref, s, role, key, now)
  }

  function CanonicalKey(role: ClientType, offer: KeyOffer): Option<Key> {
    if role.Dapp? && offer.Decoded? then Some(offer.key) else None
  }

  ghost function Join(m: Manager, id: ChannelId, s: SocketId, role: ClientType, offer: KeyOffer,
                      creatorIp: Option<Ip>, active: set<SocketId>, now: nat)
    : (r: (Manager, JoinResult))
    requires m.RefsOk()
    ensures r.0.RefsOk()
  {
    if role.Dapp? && offer.Malformed? then (m, Refused(BadKey(offer.error)))
    else if id in m.channels then
      if m.At(id).terminated then (m, Joined([], None, [], true))
      else JoinExisting(m, m.channels[id], s, role, CanonicalKey(role, offer), active, now)
    else if AtChannelCap(m, creatorIp) then (m, Refused(TooManyChannels))
    else JoinExisting(Allocate(m, id, creatorIp, now), |m.store|, s, role, CanonicalKey(role, offer), active, now)
  }

  // ---------- close and leave ----------

  function Unmap(m: Manager, id: ChannelId): Manager {
    m.(channels := m.channels - {id})
  }

  /** Drop tombstones from the front until the FIFO is within its cap. */
  function EvictTombstones(m: Manager): (r: Manager)
    requires m.RefsOk()
    ensures r.RefsOk()
    decreases |m.terminatedOrder|
  {
    if |m.terminatedOrder| <= MAX_TOMBSTONES then m
    else
      var oldest := m.terminatedOrder[0];
      var popped := m.(terminatedOrder := m.terminatedOrder[1..]);
      EvictTombstones(if oldest in m.channels && m.At(oldest).terminated then Unmap(popped, oldest) else popped)
  }

  /** Mark the object terminated and drop its heavy state. */
  function Terminate(m: Manager, ref: nat, now: nat): Manager
    requires ref < |m.store|
  {
    var w := Withdraw(m, ref, [], m.store[ref].buffer, Dropped);
    w.Put(ref, w.store[ref].(participants := map[], seqNumbers := map[], publicKey := None,
                             terminated := true, terminatedAt := now, lastActivity := now))
  }

  function Close(m: Manager, id: ChannelId, now: nat): (r: (Manager, bool))
    requires m.RefsOk()
    ensures r.0.RefsOk()
  {
    if id !in m.channels || m.At(id).terminated then (m, false)
    else
      var t := Terminate(m, m.channels[id], now);
      (EvictTombstones(t.(terminatedOrder := t.terminatedOrder + [id])), true)
  }

  function Leave(m: Manager, s: SocketId, id: ChannelId, now: nat): (r: (Manager, Option<ClientType>))
    requires m.RefsOk()
    ensures r.0.RefsOk()
  {
    if id !in m.channels || s !in m.At(id).participants then (m, None)
    else
      var left := RemoveParticipant(m, m.channels[id], s);
      (left.Put(m.channels[id], left.At(id).(lastActivity := now)), Some(m.At(id).participants[s]))
  }

  // ---------- routeMessage ----------

  function Rejected(backpressured: Option<SocketId>, error: RouteError): RouteResult {
    RouteResult(None, backpressured, false, Some(error))
  }

  /** Record an accepted sequence number. */
  function Sequenced(m: Manager, ref: nat, s: SocketId, seqNo: Option<nat>): Manager
    requires ref < |m.store|
  {
    if seqNo.None? then m
    else m.Put(ref, m.store[ref].(seqNumbers := m.store[ref].seqNumbers[s := seqNo.value]))
  }

  /** So many more bytes of this address keep all three budgets. */
  predicate Fits(m: Manager, ref: nat, size: nat, ip: Ip)
    requires ref < |m.store|
  {
    && m.store[ref].bufferedBytes + m.store[ref].inflightBytes + size <= m.limits.perChannel
    && AtIp(m.ledger.byIp, ip) + size <= m.limits.perIp
    && m.ledger.buffered + m.ledger.inflight + size <= m.limits.total
  }

  predicate FitsDirectly(m: Manager, ref: nat, target: SocketId, size: nat, ip: Ip)
    requires ref < |m.store|
  {
    target !in m.deliveries && Fits(m, ref, size, ip)
  }

  function RouteDirect(m: Manager, ref: nat, s: SocketId, target: SocketId, msg: Message): (r: (Manager, RouteResult))
    requires ref < |m.store|
    ensures m.RefsOk() ==> r.0.RefsOk()
  {
    var reserved := Reserve(m, target, Reservation(ref, msg.sourceIp, msg.size));
    var c := reserved.store[ref];
    var logged := reserved.Put(ref, c.(accepted := c.accepted + [msg], settled := c.settled + Tag([msg], Handed)));
    (Sequenced(logged, ref, s, msg.data.seqNo), RouteResult(Some(target), None, false, None))
  }

  /** The budget a buffered message would break, counting the eviction its arrival causes. */
  function BudgetError(m: Manager, ref: nat, size: nat, ip: Ip): Option<RouteError>
    requires ref < |m.store|
  {
    var c := m.store[ref];
    var evicts := |c.buffer| >= MAX_BUFFERED_MESSAGES;
    var oldestSize := if evicts then c.buffer[0].size else 0;
    var sourceOldestSize := if evicts && c.buffer[0].sourceIp == ip then oldestSize else 0;
    if c.bufferedBytes + c.inflightBytes - oldestSize + size > m.limits.perChannel then Some(ChannelBudget)
    else if AtIp(m.ledger.byIp, ip) - sourceOldestSize + size > m.limits.perIp then Some(IpBudget)
    else if m.ledger.buffered + m.ledger.inflight - oldestSize + size > m.limits.total then Some(GlobalBudget)
    else None
  }

  function RouteBuffered(m: Manager, ref: nat, s: SocketId, target: Option<SocketId>, msg: Message)
    : (r: (Manager, RouteResult))
    requires ref < |m.store|
    ensures m.RefsOk() ==> r.0.RefsOk()
  {
    match BudgetError(m, ref, msg.size, msg.sourceIp)
    case Some(e) => (m, Rejected(target, e))
    case None =>
      var evicted := if |m.store[ref].buffer| >= MAX_BUFFERED_MESSAGES then WithdrawAt(m, ref, 0, Evicted) else m;
      (Sequenced(Append(evicted, ref, msg), ref, s, msg.data.seqNo), RouteResult(None, target, true, None))
  }

  function Replays(c: Chan, s: SocketId, seqNo: Option<nat>): bool {
    seqNo.Some? && s in c.seqNumbers && seqNo.value <= c.seqNumbers[s]
  }

  /** Route a serialisable payload from a validated sender: directly if the counterparty can take it now. */
  ghost function Dispatch(m: Manager, ref: nat, s: SocketId, msg: Message, receivable: set<SocketId>)
    : (r: (Manager, RouteResult))
    requires ref < |m.store|
    ensures m.RefsOk() ==> r.0.RefsOk()
  {
    var target := Counterpart(m.store[ref].participants, s);
    if target.Some? && target.value in receivable && FitsDirectly(m, ref, target.value, msg.size, msg.sourceIp)
    then RouteDirect(m, ref, s, target.value, msg)
    else RouteBuffered(m, ref, s, target, msg)
  }

  ghost function Route(m: Manager, id: ChannelId, s: SocketId, data: Payload, ip: Ip,
                       receivable: set<SocketId>, now: nat)
    : (r: (Manager, RouteResult))
    requires m.RefsOk()
    ensures r.0.RefsOk()
    ensures r.1.error.None? ==> id in m.channels
  {
    if id !in m.channels then (m, Rejected(None, ChannelNotFound))
    else
      var ref := m.channels[id];
      var c := m.store[ref];
      if c.terminated then (m, Rejected(None, ChannelTerminated))
      else if s !in c.participants then (m, Rejected(None, SenderNotInChannel))
      else if data.clientType != c.participants[s] then (m, Rejected(None, WrongClientType))
      else
        var touched := m.Put(ref, c.(lastActivity := now));
        if Replays(c, s, data.seqNo) then (touched, Rejected(None, Replayed))
        else if data.bytes.None? then (touched, Rejected(None, NotSerializable))
        else Dispatch(touched, ref, s, Message(data, Other(c.participants[s]), now, data.bytes.value, ip), receivable)
  }

  // ---------- advanceDirectDelivery ----------

  /** The index of the oldest message for `role`, or the buffer's length. */
  function FirstFor(ms: seq<Message>, role: ClientType): (i: nat)
    ensures i <= |ms|
    ensures forall j :: 0 <= j < i ==> ms[j].target != role
    ensures i < |ms| ==> ms[i].target == role
  {
    if ms == [] then 0
    else if ms[0].target == role then 0
    else 1 + FirstFor(ms[1..], role)
  }

  function Promote(m: Manager, ref: nat, s: SocketId, i: nat): Manager
    requires ref < |m.store| && i < |m.store[ref].buffer|
  {
    var next := m.store[ref].buffer[i];
    Reserve(WithdrawAt(m, ref, i, Promoted), s, Reservation(ref, next.sourceIp, next.size))
  }

  function Advance(m: Manager, s: SocketId): (r: (Manager, Option<Payload>))
    requires m.RefsOk()
    ensures r.0.RefsOk()
    ensures r.1.Some? ==> s in m.deliveries && s in m.store[m.deliveries[s].channel].participants
  {
    if s !in m.deliveries then (m, None)
    else
      var ref := m.deliveries[s].channel;
      var c := m.store[ref];
      var free := Release(m, s);
      if s !in c.participants || c.terminated then (free, None)
      else
        var i := FirstFor(c.buffer, c.participants[s]);
        if i == |c.buffer| then (free, None)
        else (Promote(free, ref, s, i), Some(c.buffer[i].data))
  }

  // ---------- cleanup ----------

  /** One iteration of the sweep: expire the channel's messages, then perhaps forget the channel. */
  function SweepOne(m: Manager, id: ChannelId, now: nat): (r: Manager)
    requires m.RefsOk()
    ensures r.RefsOk()
  {
    if id !in m.channels then m
    else
      var w := WithdrawPicked(m, m.channels[id], OlderThan(now), Expired);
      var c := w.At(id);
      if c.terminated then
        if now - c.terminatedAt > TOMBSTONE_TTL_MS then Unmap(w, id) else w
      else if |c.participants| == 0 && now - c.lastActivity > CHANNEL_TTL_MS then Unmap(w, id)
      else w
  }

  function SweepEach(m: Manager, ids: seq<ChannelId>, now: nat): (r: Manager)
    requires m.RefsOk()
    ensures r.RefsOk()
  {
    if ids == [] then m
    else SweepOne(SweepEach(m, ids[..|ids| - 1], now), ids[|ids| - 1], now)
  }

  function StillMapped(ids: seq<ChannelId>, channels: map<ChannelId, nat>): seq<ChannelId> {
    if ids == [] then []
    else
      var last := ids[|ids| - 1];
      StillMapped(ids[..|ids| - 1], channels) + if last in channels then [last] else []
  }

  /** The sweep visits the channels in the order `ids` enumerates them. */
  function Cleanup(m: Manager, ids: seq<ChannelId>, now: nat): (r: Manager)
    requires m.RefsOk()
    ensures r.RefsOk()
  {
    var swept := SweepEach(m, ids, now);
    swept.(terminatedOrder := StillMapped(swept.terminatedOrder, swept.channels))
  }
}
