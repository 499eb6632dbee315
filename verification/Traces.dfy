/**
 Three runs from the empty relay. In the first a socket switches channels while
 its write is outstanding, and a later message is then written past a buffered
 one. In the second an owed answer is overtaken, with no such switch. In the
 third a join without an acknowledgement loses the messages it withdraws.

 Socket 1 is the dApp that sends, socket 2 the wallet. All payloads are five
 bytes from address 9.
 */
module Traces {
  import opened Options
  import opened RelayTypes
  import opened Ledgers
  import opened ManagerSpec
  import opened ManagerSafety
  import opened ManagerEffects
  import opened ManagerOps
  import opened ManagerRouting
  import opened DeliveryOrder
  import opened Mails
  import opened RelaySpec
  import opened RelaySafety
  import opened RelayMail
  import opened RelayOrder
  import opened RelayHistory
  import opened RelayReservations
  import opened RelayFates
  import opened RelayWire

  const LIMITS := Limits(1000, 1000, 1000, None, 100)
  const FIRST := Payload(1, Dapp, None, Some(5))
  const SECOND := Payload(2, Dapp, None, Some(5))
  const THIRD := Payload(3, Dapp, None, Some(5))

  function Msg(data: Payload): Message {
    Message(data, Wallet, 0, 5, 9)
  }

  // ---------- States ----------

  function Obj(parts: map<SocketId, ClientType>, waiting: seq<Message>, inflight: int, accepted: seq<Message>,
               settled: seq<Settled>): Chan {
    Chan(parts, 0, waiting, 5 * |waiting|, inflight, map[], None, false, 0, Some(9), accepted, settled)
  }

  /** Channel 10 is the first object, channel 20 the second. */
  function Mgr(store: seq<Chan>, ledger: Ledger, deliveries: map<SocketId, Reservation<nat>>): Manager {
    var channels := if |store| == 0 then map[] else if |store| == 1 then map[10 := 0] else map[10 := 0, 20 := 1];
    Manager(LIMITS, store, channels, [], ledger, deliveries)
  }

  function Both(m: Manager, listeners: map<SocketId, Phase>, one: Session, two: Session, mail: Mail): Relay {
    Relay(m, listeners, map[1 := Conn(true, true, true), 2 := Conn(true, true, true)], map[1 := one, 2 := two], mail, 0)
  }

  const NOTHING := Ledger(0, 0, map[])
  const NOWHERE := Session(9, None, Idle)

  function Seated10(): Session {
    Session(9, Some(10), Idle)
  }

  // ---------- Running ----------

  ghost predicate Leads(r: Relay, run: seq<Timed>, after: Relay) {
    r.m.RefsOk() && Run(r, run) == after
  }

  lemma {:induction false} RunConcat(r: Relay, a: seq<Timed>, b: seq<Timed>)
    requires r.m.RefsOk()
    ensures Run(r, a + b) == Run(Run(r, a), b)
    decreases |b|
  {
    if b == [] {
      assert a + b == a;
    } else {
      var init, last := b[..|b| - 1], b[|b| - 1];
      assert b == init + [last];
      assert a + b == (a + init) + [last];
      RunConcat(r, a, init);
      RunSnoc(r, a + init, last);
      RunSnoc(Run(r, a), init, last);
    }
  }

  lemma Then(r: Relay, a: seq<Timed>, middle: Relay, b: seq<Timed>, after: Relay)
    requires Leads(r, a, middle) && Leads(middle, b, after)
    ensures Leads(r, a + b, after)
  {
    RunConcat(r, a, b);
  }

  lemma RunOne(r: Relay, t: Timed)
    requires r.m.RefsOk()
    ensures Run(r, [t]) == Step(r, t)
  {
    hide Step;
    assert [t] == [] + [t];
    RunSnoc(r, [], t);
  }

  lemma RunTwo(r: Relay, t: Timed, u: Timed)
    requires r.m.RefsOk()
    ensures Run(r, [t, u]) == Step(Step(r, t), u)
  {
    hide Step;
    assert [t, u] == [t] + [u];
    RunSnoc(r, [t], u);
    RunOne(r, t);
  }

  function Now(e: Event): Timed {
    Timed(e, 0)
  }

  function Hello(): seq<Timed> {
    [Now(Connected(1, 9, true)), Now(Connected(2, 9, true))]
  }

  function Enter(s: SocketId, id: ChannelId, role: ClientType, wantsAck: bool): seq<Timed> {
    [Now(JoinChannel(s, id, role, Absent, wantsAck)), Now(RoomEntered(s, true))]
  }

  function Sent(id: ChannelId, data: Payload): seq<Timed> {
    [Now(MessageSent(1, id, data))]
  }

  function Ready(s: SocketId): seq<Timed> {
    [Now(Drained(s)), Now(Readied(s))]
  }

  // ---------- What the events do, from any state ----------

  lemma Knocks(r: Relay, s: SocketId, id: ChannelId, role: ClientType, wantsAck: bool)
    requires r.m.RefsOk() && s in r.sockets && s in r.sessions && r.sessions[s].joining.Idle?
    requires r.sessions[s].current != Some(id) && |r.m.channels| < r.m.limits.maxActiveChannels
    ensures var session := r.sessions[s];
            Step(r, Enter(s, id, role, wantsAck)[0]) ==
            r.WithSession(s, session.(joining := Entering(id, role, Absent, session.current.Some?, wantsAck)))
  {
    FewLive(r.m);
    hide Seat, LiveIds;
  }

  lemma IsSeated(r: Relay, s: SocketId, j: Joining, joined: Manager, answer: JoinResult)
    requires r.m.RefsOk() && joined.RefsOk() && s in r.sessions && r.sessions[s].joining == j && j.Entering?
    requires j.switching == r.sessions[s].current.Some?
    requires Join(r.m, j.id, s, j.role, j.offer, Some(r.sessions[s].ip), r.sockets.Keys, r.clock) == (joined, answer)
    requires Seated(answer)
    ensures var ip, prev := r.sessions[s].ip, r.sessions[s].current;
            var standing := BatchStanding(r, s, prev.Some?, j.wantsAck);
            var posted := Post(r, r.m, joined, s, ObjectFor(r.m, j.id), j.role, standing);
            Step(r, Now(RoomEntered(s, true))) ==
            if prev.None? then posted.(m := joined, sessions := r.sessions[s := Session(ip, Some(j.id), Idle)])
            else posted.(m := Leave(joined, s, prev.value, r.clock).0,
                         sessions := r.sessions[s := Session(ip, prev, Departing(j.id, answer, j.wantsAck))])
  {
    hide Join, Leave, Log, BatchStanding, ObjectFor, Post;
  }

  /** A join by way of its room, from where the manager's answer is known. */
  lemma Enters(r: Relay, s: SocketId, id: ChannelId, role: ClientType, wantsAck: bool, joined: Manager,
               answer: JoinResult)
    requires r.m.RefsOk() && s in r.sockets && s in r.sessions && r.sessions[s].joining.Idle?
    requires r.sessions[s].current != Some(id) && |r.m.channels| < r.m.limits.maxActiveChannels && joined.RefsOk()
    requires Join(r.m, id, s, role, Absent, Some(r.sessions[s].ip), r.sockets.Keys, r.clock) == (joined, answer)
    requires Seated(answer)
    ensures var ip, prev := r.sessions[s].ip, r.sessions[s].current;
            var posted := Post(r, r.m, joined, s, ObjectFor(r.m, id), role, BatchStanding(r, s, prev.Some?, wantsAck));
            Leads(r, Enter(s, id, role, wantsAck),
                  if prev.None? then posted.(m := joined, sessions := r.sessions[s := Session(ip, Some(id), Idle)])
                  else posted.(m := Leave(joined, s, prev.value, r.clock).0,
                               sessions := r.sessions[s := Session(ip, prev, Departing(id, answer, wantsAck))]))
  {
    hide Step, Join, Leave, Log;
    Knocks(r, s, id, role, wantsAck);
    var session := r.sessions[s];
    var knocked := session.(joining := Entering(id, role, Absent, session.current.Some?, wantsAck));
    IsSeated(r.WithSession(s, knocked), s, knocked.joining, joined, answer);
    RunTwo(r, Enter(s, id, role, wantsAck)[0], Enter(s, id, role, wantsAck)[1]);
    assert r.sessions[s := knocked][s := Session(session.ip, Some(id), Idle)] ==
           r.sessions[s := Session(session.ip, Some(id), Idle)];
    assert r.sessions[s := knocked][s := Session(session.ip, session.current, Departing(id, answer, wantsAck))] ==
           r.sessions[s := Session(session.ip, session.current, Departing(id, answer, wantsAck))];
  }

  lemma FewLive(m: Manager)
    requires m.RefsOk()
    ensures |LiveIds(m)| <= |m.channels|
  {
    assert m.channels.Keys == LiveIds(m) + (m.channels.Keys - LiveIds(m));
  }

  /** A message that is queued, and whose counterparty is absent or has a write outstanding. */
  lemma Queues(r: Relay, id: ChannelId, data: Payload, routed: Manager, slow: Option<SocketId>)
    requires r.m.RefsOk() && 1 in r.sockets && 1 in r.sessions
    requires Route(r.m, id, 1, data, r.sessions[1].ip, r.Receivable(), r.clock) ==
             (routed, RouteResult(None, slow, true, None))
    requires slow.Some? ==> slow.value in routed.deliveries
    ensures Leads(r, Sent(id, data), r.(m := routed))
  {
    hide Route, Relay.Receivable;
    RunOne(r, Sent(id, data)[0]);
  }

  /** A message that is written at once to socket 2, the `from`-th its object settles. */
  lemma Writes(r: Relay, id: ChannelId, data: Payload, routed: Manager, from: nat)
    requires r.m.RefsOk() && 1 in r.sockets && 1 in r.sessions && r.CanArm(2) && id in r.m.channels
    requires data.clientType.Dapp?
    requires Route(r.m, id, 1, data, r.sessions[1].ip, r.Receivable(), r.clock) ==
             (routed, RouteResult(Some(2), None, false, None))
    requires |Log(r.m, r.m.channels[id])| == from && |Log(routed, r.m.channels[id])| == from + 1
    ensures Leads(r, Sent(id, data),
                  r.(m := routed, listeners := r.listeners[2 := Draining],
                     mail := Send(r.mail, Parcel(2, r.m.channels[id], Wallet, from, from + 1, Reached))))
  {
    hide Route, Log, Relay.Receivable;
    RunOne(r, Sent(id, data)[0]);
  }

  /** A write completes on a channel where nothing waits for the socket. */
  lemma Completes(r: Relay, s: SocketId, advanced: Manager)
    requires r.m.RefsOk() && advanced.RefsOk() && s in r.listeners && r.listeners[s] == Draining
    requires r.Alive(s) && r.sockets[s].writable && Advance(r.m, s) == (advanced, None)
    ensures Leads(r, Ready(s), r.(m := Release(advanced, s), listeners := r.listeners - {s}))
  {
    hide Advance, Release, Disconnect;
    RunTwo(r, Ready(s)[0], Ready(s)[1]);
    assert r.listeners[s := Readying] - {s} == r.listeners - {s};
    assert (r.listeners - {s})[s := Draining] - {s} == r.listeners - {s};
  }

  // ---------- What the manager does, where nothing is in the way ----------

  /** Joining a keyless channel with room and no rival, from where nothing waits for the role. */
  lemma AdmitsPlainly(m: Manager, ref: nat, s: SocketId, role: ClientType, active: set<SocketId>, now: nat)
    requires m.RefsOk() && ref < |m.store| && m.store[ref].publicKey.None?
    requires s !in m.store[ref].participants && |m.store[ref].participants| < MAX_PARTICIPANTS
    requires forall o :: o in m.store[ref].participants ==> m.store[ref].participants[o] != role
    requires NoneFor(m.store[ref].buffer, role)
    ensures var c := m.store[ref];
            var parts := c.participants[s := role];
            JoinExisting(m, ref, s, role, None, active, now) ==
            (m.Put(ref, c.(participants := parts, lastActivity := now)), Joined([], None, Others(parts, s), false))
  {
    var c := m.store[ref];
    var seated := c.(participants := c.participants[s := role], lastActivity := now);
    NoneForIsEmpty(c.buffer, role);
    PickAll(c.buffer, ForRole(role), false);
    assert c.settled + Tag([], Returned) == c.settled;
    assert Payloads([]) == [];
    hide Pick, Others, Rival;
    assert Withdraw(m.Put(ref, seated), ref, c.buffer, [], Returned) == m.Put(ref, seated);
    assert Rival(c.participants, s, role).None? by {
      NoRival(c.participants, s, role);
    }
  }

  lemma NoRival(parts: map<SocketId, ClientType>, s: SocketId, role: ClientType)
    requires forall o :: o in parts && o != s ==> parts[o] != role
    ensures Rival(parts, s, role).None?
  {
  }

  lemma OnlyOther(parts: map<SocketId, ClientType>, s: SocketId, t: SocketId)
    requires t in parts && t != s && forall o :: o in parts ==> o == s || o == t
    ensures Counterpart(parts, s) == Some(t) && Others(parts, s) == [parts[t]]
  {
  }

  lemma Alone(parts: map<SocketId, ClientType>, s: SocketId)
    requires forall o :: o in parts ==> o == s
    ensures Counterpart(parts, s) == None && Others(parts, s) == []
  {
  }

  /** The manager after a join that nothing stands against and for which nothing waits. */
  function WithGuest(m: Manager, id: ChannelId, s: SocketId, role: ClientType): Manager
    requires m.RefsOk()
  {
    var base := if id in m.channels then m else Allocate(m, id, Some(9), 0);
    var c := base.At(id);
    base.Put(base.channels[id], c.(participants := c.participants[s := role], lastActivity := 0))
  }

  ghost predicate Welcomes(c: Chan, s: SocketId, role: ClientType) {
    && !c.terminated && c.publicKey.None? && NoneFor(c.buffer, role)
    && s !in c.participants && |c.participants| < MAX_PARTICIPANTS
    && forall o :: o in c.participants ==> c.participants[o] != role
  }

  lemma WalksIn(r: Relay, s: SocketId, id: ChannelId, role: ClientType, roster: seq<ClientType>)
    requires r.m.RefsOk() && s in r.sockets && s in r.sessions && r.sessions[s].joining.Idle? && r.sessions[s].ip == 9
    requires r.sessions[s].current != Some(id) && r.clock == 0
    requires |r.m.channels| < r.m.limits.maxActiveChannels && r.m.limits.maxChannelsPerIp.None?
    requires id in r.m.channels ==> Welcomes(r.m.At(id), s, role)
    requires Others((if id in r.m.channels then r.m.At(id).participants else map[])[s := role], s) == roster
    ensures var joined, prev := WithGuest(r.m, id, s, role), r.sessions[s].current;
            var answer := Joined([], None, roster, false);
            && joined.RefsOk()
            && Leads(r, Enter(s, id, role, true),
                     if prev.None? then r.(m := joined, sessions := r.sessions[s := Session(9, Some(id), Idle)])
                     else r.(m := Leave(joined, s, prev.value, 0).0,
                             sessions := r.sessions[s := Session(9, prev, Departing(id, answer, true))]))
  {
    hide Others, JoinExisting, Leave, Enter;
    var base := if id in r.m.channels then r.m else Allocate(r.m, id, Some(9), 0);
    var joined := WithGuest(r.m, id, s, role);
    AdmitsPlainly(base, base.channels[id], s, role, r.sockets.Keys, 0);
    Enters(r, s, id, role, true, joined, Joined([], None, roster, false));
  }

  /** A payload of the dApp, of five bytes and without a sequence number. */
  predicate Plain5(data: Payload) {
    data.clientType.Dapp? && data.seqNo.None? && data.bytes == Some(5)
  }

  /** Socket 1 may send on the channel, and nothing stands between it and the budgets. */
  ghost predicate Open5(m: Manager, id: ChannelId)
    requires m.RefsOk()
  {
    && SeatedAt(m, id, 1) && m.At(id).participants[1] == Dapp
    && !m.At(id).terminated && m.At(id).lastActivity == 0 && |m.At(id).buffer| < MAX_BUFFERED_MESSAGES
    && Fits(m, m.channels[id], 5, 9)
  }

  lemma RoutesDirectly(m: Manager, id: ChannelId, data: Payload, receivable: set<SocketId>)
    requires m.RefsOk() && Open5(m, id) && Plain5(data) && m.At(id).participants == PAIR
    requires 2 in receivable && 2 !in m.deliveries
    ensures var ref, c := m.channels[id], m.At(id);
            var written := c.(inflightBytes := c.inflightBytes + 5, accepted := c.accepted + [Msg(data)],
                              settled := c.settled + [Settled(Msg(data), Handed)]);
            Route(m, id, 1, data, 9, receivable, 0) ==
            (m.Put(ref, written).(deliveries := m.deliveries[2 := Reservation(ref, 9, 5)],
                                  ledger := RetainInflight(m.ledger, 9, 5)),
             RouteResult(Some(2), None, false, None))
  {
    OnlyOther(PAIR, 1, 2);
    hide Others, Counterpart;
    var ref := m.channels[id];
    assert Tag([Msg(data)], Handed) == [Settled(Msg(data), Handed)];
    assert m.Put(ref, m.At(id).(lastActivity := 0)) == m;
    var c := m.At(id);
    var written := c.(inflightBytes := c.inflightBytes + 5, accepted := c.accepted + [Msg(data)],
                      settled := c.settled + [Settled(Msg(data), Handed)]);
    assert RouteDirect(m, ref, 1, 2, Msg(data)).0.store == m.Put(ref, written).store;
  }

  lemma RoutesToQueue(m: Manager, id: ChannelId, data: Payload, receivable: set<SocketId>)
    requires m.RefsOk() && Open5(m, id) && Plain5(data)
    requires var t := Counterpart(m.At(id).participants, 1); t.Some? ==> t.value !in receivable
    ensures var ref, c := m.channels[id], m.At(id);
            var queued := c.(buffer := c.buffer + [Msg(data)], bufferedBytes := c.bufferedBytes + 5,
                             accepted := c.accepted + [Msg(data)]);
            Route(m, id, 1, data, 9, receivable, 0) ==
            (m.Put(ref, queued).(ledger := RetainBuffered(m.ledger, 9, 5)),
             RouteResult(None, Counterpart(c.participants, 1), true, None))
  {
    hide Counterpart;
    assert m.Put(m.channels[id], m.At(id).(lastActivity := 0)) == m;
  }

  // ---------- The shared beginning ----------

  const APP := map[1 := Dapp]
  const WALLET := map[2 := Wallet]
  const PAIR := map[1 := Dapp, 2 := Wallet]

  function Fresh(): Relay {
    Both(Mgr([], NOTHING, map[]), map[], NOWHERE, NOWHERE, NO_MAIL)
  }

  function AppIn10(): Relay {
    Both(Mgr([Obj(APP, [], 0, [], [])], NOTHING, map[]), map[], Seated10(), NOWHERE, NO_MAIL)
  }

  lemma Connects()
    ensures Leads(EmptyRelay(LIMITS), Hello(), Fresh())
  {
    RunTwo(EmptyRelay(LIMITS), Hello()[0], Hello()[1]);
  }

  lemma Sessions(one: Session, two: Session, other: Session)
    ensures map[1 := one, 2 := two][1 := other] == map[1 := other, 2 := two]
    ensures map[1 := one, 2 := two][2 := other] == map[1 := one, 2 := other]
  {
  }

  lemma AppJoins()
    ensures Leads(Fresh(), Enter(1, 10, Dapp, true), AppIn10())
  {
    hide Leads, Enter;
    Alone(map[][1 := Dapp], 1);
    WalksIn(Fresh(), 1, 10, Dapp, []);
    Sessions(NOWHERE, NOWHERE, Seated10());
    assert WithGuest(Fresh().m, 10, 1, Dapp).store == AppIn10().m.store;
  }

  // ---------- A foreign seat ----------

  function WritingTo2(inflight: int, parts: map<SocketId, ClientType>): Chan {
    Obj(parts, [], inflight, [Msg(FIRST)], [Settled(Msg(FIRST), Handed)])
  }

  const WRITE := Reservation(0, 9, 5)
  const MOVES_ONE := Session(9, Some(10), Departing(20, Joined([], None, [], false), true))
  const MOVES_TWO := Session(9, Some(10), Departing(20, Joined([], None, [Dapp], false), true))
  const FIRST_PARCEL := Parcel(2, 0, Wallet, 0, 1, Reached)
  const WRITTEN := Mail([FIRST_PARCEL], [0], map[])

  function PairIn10(): Relay {
    Both(Mgr([Obj(PAIR, [], 0, [], [])], NOTHING, map[]), map[], Seated10(), Seated10(), NO_MAIL)
  }

  function FirstWritten(): Relay {
    Both(Mgr([WritingTo2(5, PAIR)], Ledger(0, 5, map[9 := 5]), map[2 := WRITE]),
         map[2 := Draining], Seated10(), Seated10(), WRITTEN)
  }

  function AppMoved(): Relay {
    Both(Mgr([WritingTo2(5, WALLET), Obj(APP, [], 0, [], [])], Ledger(0, 5, map[9 := 5]), map[2 := WRITE]),
         map[2 := Draining], MOVES_ONE, Seated10(), WRITTEN)
  }

  function BothMoved(): Relay {
    Both(Mgr([WritingTo2(5, map[]), Obj(PAIR, [], 0, [], [])], Ledger(0, 5, map[9 := 5]), map[2 := WRITE]),
         map[2 := Draining], MOVES_ONE, MOVES_TWO, WRITTEN)
  }

  function SecondWaits(): Relay {
    Both(Mgr([WritingTo2(5, map[]), Obj(PAIR, [Msg(SECOND)], 0, [Msg(SECOND)], [])],
             Ledger(5, 5, map[9 := 10]), map[2 := WRITE]),
         map[2 := Draining], MOVES_ONE, MOVES_TWO, WRITTEN)
  }

  function WriteDone(): Relay {
    Both(Mgr([WritingTo2(0, map[]), Obj(PAIR, [Msg(SECOND)], 0, [Msg(SECOND)], [])],
             Ledger(5, 0, map[9 := 5]), map[]),
         map[], MOVES_ONE, MOVES_TWO, WRITTEN)
  }

  function ThirdWritten(): Relay {
    Both(Mgr([WritingTo2(0, map[]),
              Obj(PAIR, [Msg(SECOND)], 5, [Msg(SECOND), Msg(THIRD)], [Settled(Msg(THIRD), Handed)])],
             Ledger(5, 5, map[9 := 10]), map[2 := Reservation(1, 9, 5)]),
         map[2 := Draining], MOVES_ONE, MOVES_TWO,
         Mail([FIRST_PARCEL, Parcel(2, 1, Wallet, 0, 1, Reached)], [0, 1], map[]))
  }

  lemma WalletJoins()
    ensures Leads(AppIn10(), Enter(2, 10, Wallet, true), PairIn10())
  {
    hide Leads, Enter;
    OnlyOther(APP[2 := Wallet], 2, 1);
    assert |APP| == 1;
    WalksIn(AppIn10(), 2, 10, Wallet, [Dapp]);
    Sessions(Seated10(), NOWHERE, Seated10());
    assert APP[2 := Wallet] == PAIR;
    assert WithGuest(AppIn10().m, 10, 2, Wallet).store == PairIn10().m.store;
  }

  lemma FirstRoute()
    ensures PairIn10().m.RefsOk()
    ensures Route(PairIn10().m, 10, 1, FIRST, 9, {1, 2}, 0) ==
            (FirstWritten().m, RouteResult(Some(2), None, false, None))
  {
    hide Route;
    var m, after := PairIn10().m, FirstWritten().m;
    RoutesDirectly(m, 10, FIRST, {1, 2});
    assert [] + [Msg(FIRST)] == [Msg(FIRST)] && [] + [Settled(Msg(FIRST), Handed)] == [Settled(Msg(FIRST), Handed)];
    assert Route(m, 10, 1, FIRST, 9, {1, 2}, 0).0.store == after.store;
  }

  lemma BothReceive(r: Relay)
    requires r.sockets == map[1 := Conn(true, true, true), 2 := Conn(true, true, true)] && r.listeners == map[]
    ensures r.Receivable() == {1, 2}
  {
    assert r.CanArm(1) && r.CanArm(2);
  }

  lemma FirstIsWritten()
    ensures Leads(PairIn10(), Sent(10, FIRST), FirstWritten())
  {
    hide Leads, Sent, Route, Relay.Receivable;
    FirstRoute();
    BothReceive(PairIn10());
    Writes(PairIn10(), 10, FIRST, FirstWritten().m, 0);
    assert Send(NO_MAIL, FIRST_PARCEL) == WRITTEN;
  }

  lemma Charges(a: int, b: int)
    ensures map[9 := a][9 := b] == map[9 := b]
  {
  }

  /** The first socket has entered channel 20, not yet left channel 10. */
  function AppInBoth(): Manager {
    Mgr([WritingTo2(5, PAIR), Obj(APP, [], 0, [], [])], Ledger(0, 5, map[9 := 5]), map[2 := WRITE])
  }

  lemma AppEnters20()
    ensures FirstWritten().m.RefsOk() && WithGuest(FirstWritten().m, 20, 1, Dapp) == AppInBoth()
  {
    hide WritingTo2;
    assert map[][1 := Dapp] == APP;
    assert WithGuest(FirstWritten().m, 20, 1, Dapp).store == AppInBoth().store;
  }

  lemma AppLeaves10()
    ensures AppInBoth().RefsOk() && Leave(AppInBoth(), 1, 10, 0).0 == AppMoved().m
  {
    assert PAIR - {1} == WALLET;
    assert Leave(AppInBoth(), 1, 10, 0).0.store == AppMoved().m.store;
  }

  lemma AppMoves()
    ensures Leads(FirstWritten(), Enter(1, 20, Dapp, true), AppMoved())
  {
    hide Leads, Enter, Leave, WithGuest, WritingTo2, Obj, AppInBoth;
    AppEnters20();
    AppLeaves10();
    Alone(map[][1 := Dapp], 1);
    WalksIn(FirstWritten(), 1, 20, Dapp, []);
    Sessions(Seated10(), Seated10(), MOVES_ONE);
  }

  lemma WalletLeaves10()
    ensures AppMoved().m.RefsOk() && WithGuest(AppMoved().m, 20, 2, Wallet).RefsOk()
    ensures Leave(WithGuest(AppMoved().m, 20, 2, Wallet), 2, 10, 0).0 == BothMoved().m
  {
    assert WALLET - {2} == map[] && APP[2 := Wallet] == PAIR;
    assert Leave(WithGuest(AppMoved().m, 20, 2, Wallet), 2, 10, 0).0.store == BothMoved().m.store;
  }

  lemma WalletMoves()
    ensures Leads(AppMoved(), Enter(2, 20, Wallet, true), BothMoved())
  {
    hide Leads, Enter, Leave, WithGuest, WritingTo2;
    WalletLeaves10();
    OnlyOther(APP[2 := Wallet], 2, 1);
    assert |APP| == 1;
    WalksIn(AppMoved(), 2, 20, Wallet, [Dapp]);
    Sessions(MOVES_ONE, Seated10(), MOVES_TWO);
  }

  lemma OneReceives(r: Relay)
    requires r.sockets == map[1 := Conn(true, true, true), 2 := Conn(true, true, true)]
    requires r.listeners == map[2 := Draining]
    ensures r.Receivable() == {1}
  {
    assert r.CanArm(1);
  }

  lemma SecondIsQueued()
    ensures Leads(BothMoved(), Sent(20, SECOND), SecondWaits())
  {
    hide Leads, Sent, Route, Relay.Receivable;
    var m, after := BothMoved().m, SecondWaits().m;
    OnlyOther(PAIR, 1, 2);
    RoutesToQueue(m, 20, SECOND, {1});
    OneReceives(BothMoved());
    Charges(5, 10);
    assert [] + [Msg(SECOND)] == [Msg(SECOND)];
    assert Route(m, 20, 1, SECOND, 9, {1}, 0).0.store == after.store;
    Queues(BothMoved(), 20, SECOND, after, Some(2));
  }

  lemma WriteAdvances()
    ensures SecondWaits().m.RefsOk()
    ensures Advance(SecondWaits().m, 2) == (WriteDone().m, None)
    ensures Release(WriteDone().m, 2) == WriteDone().m
  {
    Charges(10, 5);
    var r, e := Advance(SecondWaits().m, 2).0, WriteDone().m;
    assert r.store == e.store;
    assert map[2 := WRITE] - {2} == map[];
  }

  lemma WriteCompletes()
    ensures Leads(SecondWaits(), Ready(2), WriteDone())
  {
    hide Leads, Ready, Advance, Release;
    WriteAdvances();
    Completes(SecondWaits(), 2, WriteDone().m);
    assert map[2 := Draining] - {2} == map[];
  }

  lemma ThirdIsWritten()
    ensures Leads(WriteDone(), Sent(20, THIRD), ThirdWritten())
  {
    hide Leads, Sent, Route, Relay.Receivable;
    var m, after := WriteDone().m, ThirdWritten().m;
    RoutesDirectly(m, 20, THIRD, {1, 2});
    BothReceive(WriteDone());
    Charges(5, 10);
    assert [] + [Settled(Msg(THIRD), Handed)] == [Settled(Msg(THIRD), Handed)];
    assert [Msg(SECOND)] + [Msg(THIRD)] == [Msg(SECOND), Msg(THIRD)];
    assert Route(m, 20, 1, THIRD, 9, {1, 2}, 0).0.store == after.store;
    Writes(WriteDone(), 20, THIRD, after, 0);
    assert Send(WRITTEN, Parcel(2, 1, Wallet, 0, 1, Reached)) == ThirdWritten().mail;
  }

  /** The wallet's app moves to channel 20 and the wallet follows while its first write is outstanding. */
  function SwitchingRun(): seq<Timed> {
    ((((((Hello() + Enter(1, 10, Dapp, true)) + Enter(2, 10, Wallet, true)) + Sent(10, FIRST)) +
       Enter(1, 20, Dapp, true)) + Enter(2, 20, Wallet, true)) + Sent(20, SECOND)) + (Ready(2) + Sent(20, THIRD))
  }

  lemma SwitchingLeads()
    ensures Leads(EmptyRelay(LIMITS), SwitchingRun(), ThirdWritten())
  {
    hide Leads, Hello, Enter, Sent, Ready, Fresh, AppIn10, PairIn10, FirstWritten, AppMoved, BothMoved, SecondWaits,
         WriteDone, ThirdWritten, EmptyRelay;
    var start, run := EmptyRelay(LIMITS), Hello();
    Connects();
    AppJoins();
    Then(start, run, Fresh(), Enter(1, 10, Dapp, true), AppIn10());
    run := run + Enter(1, 10, Dapp, true);
    WalletJoins();
    Then(start, run, AppIn10(), Enter(2, 10, Wallet, true), PairIn10());
    run := run + Enter(2, 10, Wallet, true);
    FirstIsWritten();
    Then(start, run, PairIn10(), Sent(10, FIRST), FirstWritten());
    run := run + Sent(10, FIRST);
    AppMoves();
    Then(start, run, FirstWritten(), Enter(1, 20, Dapp, true), AppMoved());
    run := run + Enter(1, 20, Dapp, true);
    WalletMoves();
    Then(start, run, AppMoved(), Enter(2, 20, Wallet, true), BothMoved());
    run := run + Enter(2, 20, Wallet, true);
    SecondIsQueued();
    Then(start, run, BothMoved(), Sent(20, SECOND), SecondWaits());
    run := run + Sent(20, SECOND);
    WriteCompletes();
    ThirdIsWritten();
    Then(SecondWaits(), Ready(2), WriteDone(), Sent(20, THIRD), ThirdWritten());
    Then(start, run, SecondWaits(), Ready(2) + Sent(20, THIRD), ThirdWritten());
  }

  /** THIRD was written to socket 2's transport while SECOND, accepted before it, still waits. */
  lemma SwitchingReorders()
    ensures var r := Run(EmptyRelay(LIMITS), SwitchingRun());
            && |SwitchingRun()| == 15 && |r.m.store| == 2
            && var c := r.m.store[1];
            && For(c.accepted, Wallet) == [Msg(SECOND), Msg(THIRD)]
            && For(Plain(c.settled), Wallet) == [Msg(THIRD)]
            && For(c.buffer, Wallet) == [Msg(SECOND)]
            && !HandedInOrder(r)
  {
    SwitchingLeads();
    hide Run, HandedInOrder;
    var c := ThirdWritten().m.store[1];
    assert Plain(c.settled) == [Msg(THIRD)];
    AllForWallet([Msg(SECOND), Msg(THIRD)]);
    AllForWallet([Msg(THIRD)]);
    AllForWallet([Msg(SECOND)]);
    NotInOrder(ThirdWritten());
  }

  lemma AllForWallet(ms: seq<Message>)
    requires forall m :: m in ms ==> m.target == Wallet
    ensures For(ms, Wallet) == ms
  {
    PickAll(ms, ForRole(Wallet), true);
  }

  lemma NotInOrder(r: Relay)
    requires |r.m.store| == 2
    requires For(r.m.store[1].accepted, Wallet) == [Msg(SECOND), Msg(THIRD)]
    requires For(Plain(r.m.store[1].settled), Wallet) == [Msg(THIRD)]
    requires For(r.m.store[1].buffer, Wallet) == [Msg(SECOND)]
    ensures !HandedInOrder(r)
  {
    hide Pick;
    assert ([Msg(THIRD)] + [Msg(SECOND)])[0] != [Msg(SECOND), Msg(THIRD)][0];
    assert ChanInOrder(r.m.store[1]) ==> InOrder(r.m.store[1], Wallet);
  }

  // ---------- A message waits for the wallet ----------

  const RETURNED := Settled(Msg(SECOND), Returned)
  const ANSWER := Joined([SECOND], None, [Dapp], false)

  function AppWaits(): Relay {
    AppIn10().(m := Mgr([Obj(APP, [Msg(SECOND)], 0, [Msg(SECOND)], [])], Ledger(5, 0, map[9 := 5]), map[]))
  }

  lemma SecondWaitsIn10()
    ensures Leads(AppIn10(), Sent(10, SECOND), AppWaits())
  {
    hide Leads, Sent, Route, Relay.Receivable;
    var m, after := AppIn10().m, AppWaits().m;
    Alone(APP, 1);
    RoutesToQueue(m, 10, SECOND, {1, 2});
    BothReceive(AppIn10());
    assert [] + [Msg(SECOND)] == [Msg(SECOND)];
    assert Route(m, 10, 1, SECOND, 9, {1, 2}, 0).0.store == after.store;
    Queues(AppIn10(), 10, SECOND, after, None);
  }

  lemma WithdrawsSecond()
    ensures For([Msg(SECOND)], Wallet) == [Msg(SECOND)] && Pick([Msg(SECOND)], ForRole(Wallet), false) == []
    ensures Payloads([Msg(SECOND)]) == [SECOND] && [] + Tag([Msg(SECOND)], Returned) == [RETURNED]
    ensures ClampEach(5, [Msg(SECOND)]) == 0
    ensures ReleaseEach(Ledger(5, 0, map[9 := 5]), [Msg(SECOND)]) == NOTHING
  {
    PickAll([Msg(SECOND)], ForRole(Wallet), true);
    assert [Msg(SECOND)][..0] == [];
    assert ReleaseEach(Ledger(5, 0, map[9 := 5]), []) == Ledger(5, 0, map[9 := 5]);
    assert map[9 := 5] - {9} == map[];
  }

  /** The wallet's join to channel 10 takes SECOND out of it. */
  lemma JoinTakesSecond(m: Manager)
    requires m.RefsOk() && 10 in m.channels && m.channels[10] == 0 && |m.store| > 0
    requires m.ledger == Ledger(5, 0, map[9 := 5])
    requires m.store[0] == Obj(APP, [Msg(SECOND)], 0, [Msg(SECOND)], [])
    ensures Join(m, 10, 2, Wallet, Absent, Some(9), {1, 2}, 0) ==
            (m.(store := m.store[0 := Obj(PAIR, [], 0, [Msg(SECOND)], [RETURNED])], ledger := NOTHING), ANSWER)
  {
    hide Pick, Payloads, Tag, ClampEach, ReleaseEach, Rival, Others;
    WithdrawsSecond();
    NoRival(APP, 2, Wallet);
    assert |APP| == 1 && APP[2 := Wallet] == PAIR;
    OnlyOther(PAIR, 2, 1);
    var after := Admit(m, 0, 2, Wallet, None, 0).0;
    assert after.store[0] == Obj(PAIR, [], 0, [Msg(SECOND)], [RETURNED]);
    assert after.store == m.store[0 := after.store[0]];
  }

  lemma WaitingLeads()
    ensures Leads(EmptyRelay(LIMITS), (Hello() + Enter(1, 10, Dapp, true)) + Sent(10, SECOND), AppWaits())
  {
    hide Leads, Hello, Enter, Sent, Fresh, AppIn10, AppWaits, EmptyRelay;
    var start := EmptyRelay(LIMITS);
    Connects();
    AppJoins();
    Then(start, Hello(), Fresh(), Enter(1, 10, Dapp, true), AppIn10());
    SecondWaitsIn10();
    Then(start, Hello() + Enter(1, 10, Dapp, true), AppIn10(), Sent(10, SECOND), AppWaits());
  }

  // ---------- A join without an acknowledgement ----------

  function SilentlyJoined(): Relay {
    Both(Mgr([Obj(PAIR, [], 0, [Msg(SECOND)], [RETURNED])], NOTHING, map[]), map[], Seated10(), Seated10(),
         Mail([Parcel(2, 0, Wallet, 0, 1, Lost)], [], map[]))
  }

  lemma WalletJoinsSilently()
    ensures Leads(AppWaits(), Enter(2, 10, Wallet, false), SilentlyJoined())
  {
    hide Leads, Enter, Join;
    var r, after := AppWaits(), SilentlyJoined();
    JoinTakesSecond(r.m);
    assert r.m.store[0 := after.m.store[0]] == after.m.store;
    assert r.sockets.Keys == {1, 2};
    Enters(r, 2, 10, Wallet, false, after.m, ANSWER);
    Sessions(Seated10(), NOWHERE, Seated10());
    assert Send(NO_MAIL, Parcel(2, 0, Wallet, 0, 1, Lost)) == after.mail;
  }

  function SilentRun(): seq<Timed> {
    ((Hello() + Enter(1, 10, Dapp, true)) + Sent(10, SECOND)) + Enter(2, 10, Wallet, false)
  }

  /** A live wallet that joins without asking for an acknowledgement loses the message that waited for it. */
  lemma SilentJoinLosesBatch()
    ensures var r := Run(EmptyRelay(LIMITS), SilentRun());
            && |SilentRun()| == 7 && r.Alive(2)
            && |r.m.store| == 1 && r.m.store[0].buffer == [] && r.m.store[0].settled == [Settled(Msg(SECOND), Returned)]
            && r.mail.outbox == [Parcel(2, 0, Wallet, 0, 1, Lost)] && r.mail.wire == []
  {
    WaitingLeads();
    WalletJoinsSilently();
    Then(EmptyRelay(LIMITS), (Hello() + Enter(1, 10, Dapp, true)) + Sent(10, SECOND), AppWaits(),
         Enter(2, 10, Wallet, false), SilentlyJoined());
    hide Run;
  }

  // ---------- An answer that is overtaken ----------

  const OWED := Parcel(2, 0, Wallet, 0, 1, Waiting)
  const THIRD_PARCEL := Parcel(2, 0, Wallet, 1, 2, Reached)
  const IN_20 := Session(9, Some(20), Idle)
  const LEAVES_20 := Session(9, Some(20), Departing(10, ANSWER, true))

  function WalletIn20(): Relay {
    Both(Mgr([Obj(APP, [Msg(SECOND)], 0, [Msg(SECOND)], []), Obj(WALLET, [], 0, [], [])],
             Ledger(5, 0, map[9 := 5]), map[]),
         map[], Seated10(), IN_20, NO_MAIL)
  }

  function AnswerOwed(): Relay {
    Both(Mgr([Obj(PAIR, [], 0, [Msg(SECOND)], [RETURNED]), Obj(map[], [], 0, [], [])], NOTHING, map[]),
         map[], Seated10(), LEAVES_20, Mail([OWED], [], map[2 := 0]))
  }

  function Overtaken(): Relay {
    Both(Mgr([Obj(PAIR, [], 5, [Msg(SECOND), Msg(THIRD)], [RETURNED, Settled(Msg(THIRD), Handed)]),
              Obj(map[], [], 0, [], [])],
             Ledger(0, 5, map[9 := 5]), map[2 := WRITE]),
         map[2 := Draining], Seated10(), LEAVES_20, Mail([OWED, THIRD_PARCEL], [1], map[2 := 0]))
  }

  function LateAnswered(): Relay {
    Overtaken().(sessions := map[1 := Seated10(), 2 := Seated10()],
                 mail := Mail([OWED.(standing := Reached), THIRD_PARCEL], [1, 0], map[]))
  }

  lemma WalletJoins20()
    ensures Leads(AppWaits(), Enter(2, 20, Wallet, true), WalletIn20())
  {
    hide Leads, Enter;
    Alone(map[][2 := Wallet], 2);
    WalksIn(AppWaits(), 2, 20, Wallet, []);
    Sessions(Seated10(), NOWHERE, IN_20);
    assert WithGuest(AppWaits().m, 20, 2, Wallet).store == WalletIn20().m.store;
  }

  /** The wallet has taken SECOND from channel 10, not yet left channel 20. */
  function WalletInBoth(): Manager {
    WalletIn20().m.(store := [AnswerOwed().m.store[0], WalletIn20().m.store[1]], ledger := NOTHING)
  }

  lemma SwitchTakesSecond()
    ensures WalletIn20().m.RefsOk()
    ensures Join(WalletIn20().m, 10, 2, Wallet, Absent, Some(9), {1, 2}, 0) == (WalletInBoth(), ANSWER)
  {
    hide Join;
    var m := WalletIn20().m;
    JoinTakesSecond(m);
    assert m.store[0 := AnswerOwed().m.store[0]] == WalletInBoth().store;
  }

  lemma WalletLeaves20()
    ensures WalletInBoth().RefsOk() && Leave(WalletInBoth(), 2, 20, 0).0 == AnswerOwed().m
  {
    assert WALLET - {2} == map[];
    assert Leave(WalletInBoth(), 2, 20, 0).0.store == AnswerOwed().m.store;
  }

  lemma AnswerIsOwed()
    ensures WalletIn20().m.RefsOk() && ObjectFor(WalletIn20().m, 10) == 0
    ensures BatchStanding(WalletIn20(), 2, true, true) == Waiting
    ensures Post(WalletIn20(), WalletIn20().m, WalletInBoth(), 2, 0, Wallet, Waiting) ==
            WalletIn20().(mail := AnswerOwed().mail)
  {
    assert Log(WalletIn20().m, 0) == [] && Log(WalletInBoth(), 0) == [RETURNED];
    assert Send(NO_MAIL, OWED) == AnswerOwed().mail;
  }

  lemma WalletSwitches()
    ensures Leads(WalletIn20(), Enter(2, 10, Wallet, true), AnswerOwed())
  {
    hide Leads, Enter, Join, Leave, WalletInBoth, Post, ObjectFor, BatchStanding, Obj;
    SwitchTakesSecond();
    WalletLeaves20();
    AnswerIsOwed();
    assert WalletIn20().sockets.Keys == {1, 2};
    Enters(WalletIn20(), 2, 10, Wallet, true, WalletInBoth(), ANSWER);
    Sessions(Seated10(), IN_20, LEAVES_20);
  }

  lemma ThirdOvertakes()
    ensures Leads(AnswerOwed(), Sent(10, THIRD), Overtaken())
  {
    hide Leads, Sent, Route, Relay.Receivable;
    var m, after := AnswerOwed().m, Overtaken().m;
    RoutesDirectly(m, 10, THIRD, {1, 2});
    BothReceive(AnswerOwed());
    assert [RETURNED] + [Settled(Msg(THIRD), Handed)] == [RETURNED, Settled(Msg(THIRD), Handed)];
    assert [Msg(SECOND)] + [Msg(THIRD)] == [Msg(SECOND), Msg(THIRD)];
    assert Route(m, 10, 1, THIRD, 9, {1, 2}, 0).0.store == after.store;
    Writes(AnswerOwed(), 10, THIRD, after, 1);
    assert Send(AnswerOwed().mail, THIRD_PARCEL) == Overtaken().mail;
  }

  lemma AnswersAtLast()
    ensures Leads(Overtaken(), [Now(RoomLeft(2, true))], LateAnswered())
  {
    RunOne(Overtaken(), Now(RoomLeft(2, true)));
    hide Run, Leave, Mgr;
    Sessions(Seated10(), LEAVES_20, Seated10());
    assert map[2 := 0] - {2} == map[];
  }

  function BeforeThird(): seq<Timed> {
    ((Hello() + Enter(1, 10, Dapp, true)) + Sent(10, SECOND)) +
      (Enter(2, 20, Wallet, true) + Enter(2, 10, Wallet, true))
  }

  function LateRun(): seq<Timed> {
    (BeforeThird() + Sent(10, THIRD)) + [Now(RoomLeft(2, true))]
  }

  lemma LateLeads()
    ensures Leads(EmptyRelay(LIMITS), BeforeThird() + Sent(10, THIRD), Overtaken())
    ensures Leads(EmptyRelay(LIMITS), LateRun(), LateAnswered())
  {
    hide Leads, Hello, Enter, Sent, AppWaits, WalletIn20, AnswerOwed, Overtaken, LateAnswered, EmptyRelay;
    var start := EmptyRelay(LIMITS);
    WaitingLeads();
    WalletJoins20();
    WalletSwitches();
    Then(AppWaits(), Enter(2, 20, Wallet, true), WalletIn20(), Enter(2, 10, Wallet, true), AnswerOwed());
    Then(start, (Hello() + Enter(1, 10, Dapp, true)) + Sent(10, SECOND), AppWaits(),
         Enter(2, 20, Wallet, true) + Enter(2, 10, Wallet, true), AnswerOwed());
    ThirdOvertakes();
    Then(start, BeforeThird(), AnswerOwed(), Sent(10, THIRD), Overtaken());
    AnswersAtLast();
    Then(start, BeforeThird() + Sent(10, THIRD), Overtaken(), [Now(RoomLeft(2, true))], LateAnswered());
  }

  /** While nobody writes, nobody has a write outstanding, so nobody takes one along. */
  lemma {:induction false} QuietNeverForeign(r: Relay, run: seq<Timed>)
    requires r.m.RefsOk() && Inv(r, r.clock) && r.m.deliveries == map[]
    requires forall k :: 0 <= k < |run| ==> !run[k].event.MessageSent?
    ensures NeverForeign(r, run)
    ensures Inv(Run(r, run), Run(r, run).clock) && Run(r, run).m.deliveries == map[]
    decreases |run|
  {
    hide Inv, Step, EntersForeign;
    if run != [] {
      var init, last := run[..|run| - 1], run[|run| - 1];
      QuietNeverForeign(r, init);
      var before := Run(r, init);
      StepKeepsInv(before, last);
      NoWriteNotForeign(before, last.event, before.clock + last.elapsed);
      NobodyReserves(before, last);
    }
  }

  lemma NoWriteNotForeign(r: Relay, e: Event, now: nat)
    requires r.m.RefsOk() && (r.m.deliveries == map[] || e.RoomLeft? || e.MessageSent?)
    ensures !EntersForeign(r, e, now)
  {
    hide AdmitsJoin;
  }

  lemma NobodyReserves(r: Relay, t: Timed)
    requires r.m.RefsOk() && Inv(r, r.clock) && r.m.deliveries == map[] && !t.event.MessageSent?
    ensures Step(r, t).m.deliveries == map[]
  {
    hide Inv, Handle;
    var now := r.clock + t.elapsed;
    InvLater(r, r.clock, now);
    forall s: SocketId ensures s !in Step(r, t).m.deliveries {
      HandleAccounts(r, t.event, now, s);
    }
  }

  lemma {:induction false} NeverForeignConcat(r: Relay, a: seq<Timed>, b: seq<Timed>)
    requires r.m.RefsOk() && NeverForeign(r, a) && NeverForeign(Run(r, a), b)
    ensures NeverForeign(r, a + b)
    decreases |b|
  {
    hide EntersForeign, Run;
    if b == [] {
      assert a + b == a;
    } else {
      var init := b[..|b| - 1];
      assert (a + b)[..|a + b| - 1] == a + init;
      NeverForeignConcat(r, a, init);
      RunConcat(r, a, init);
    }
  }

  lemma OneNotForeign(r: Relay, t: Timed)
    requires r.m.RefsOk() && (t.event.MessageSent? || t.event.RoomLeft?)
    ensures NeverForeign(r, [t])
  {
    assert [t][..0] == [];
    NoWriteNotForeign(r, t.event, r.clock + t.elapsed);
    hide EntersForeign;
  }

  lemma StartNeverForeign()
    ensures EmptyRelay(LIMITS).m.RefsOk() && NeverForeign(EmptyRelay(LIMITS), Hello() + Enter(1, 10, Dapp, true))
  {
    hide Inv, NeverForeign, Run;
    EmptyInv(LIMITS);
    QuietNeverForeign(EmptyRelay(LIMITS), Hello() + Enter(1, 10, Dapp, true));
  }

  lemma MovesNeverForeign()
    ensures AppWaits().m.RefsOk()
    ensures NeverForeign(AppWaits(), Enter(2, 20, Wallet, true) + Enter(2, 10, Wallet, true))
  {
    hide Inv, NeverForeign, Run, Hello;
    WaitingLeads();
    RunKeepsInv(LIMITS, (Hello() + Enter(1, 10, Dapp, true)) + Sent(10, SECOND));
    QuietNeverForeign(AppWaits(), Enter(2, 20, Wallet, true) + Enter(2, 10, Wallet, true));
  }

  lemma LateNeverForeign()
    ensures NeverForeign(EmptyRelay(LIMITS), LateRun())
  {
    hide NeverForeign, Run, EmptyRelay, Hello, Enter, AppWaits;
    var start, quiet := EmptyRelay(LIMITS), Hello() + Enter(1, 10, Dapp, true);
    var moves := Enter(2, 20, Wallet, true) + Enter(2, 10, Wallet, true);
    StartNeverForeign();
    OneNotForeign(Run(start, quiet), Sent(10, SECOND)[0]);
    NeverForeignConcat(start, quiet, Sent(10, SECOND));
    WaitingLeads();
    MovesNeverForeign();
    NeverForeignConcat(start, quiet + Sent(10, SECOND), moves);
    OneNotForeign(Run(start, BeforeThird()), Sent(10, THIRD)[0]);
    NeverForeignConcat(start, BeforeThird(), Sent(10, THIRD));
    OneNotForeign(Run(start, BeforeThird() + Sent(10, THIRD)), Now(RoomLeft(2, true)));
    NeverForeignConcat(start, BeforeThird() + Sent(10, THIRD), [Now(RoomLeft(2, true))]);
  }

  /** The client of socket 2 receives THIRD and then, in the answer to its join, SECOND, which was accepted first. */
  lemma LateAnswerReorders()
    ensures var run := LateRun();
            var r := StateAt(LIMITS, run, |run|);
            && |run| == 11 && NeverForeign(EmptyRelay(LIMITS), run)
            && |r.m.store| == 2 && For(r.m.store[0].accepted, Wallet) == [Msg(SECOND), Msg(THIRD)]
            && MailOk(r) && |r.mail.wire| == 2 && Received(r, 2, 0, Wallet) == [Msg(THIRD), Msg(SECOND)]
            && !HandedInOrder(r)
            && OvertakingAt(LIMITS, run, 10)
  {
    hide Run, NeverForeign, MailOk, HandedInOrder, Received, Overtaking, Pick;
    var run := LateRun();
    LateNeverForeign();
    LateLeads();
    assert run[..|run|] == run && run[..10] == BeforeThird() + Sent(10, THIRD);
    RunKeepsMail(LIMITS, run, |run|);
    AllForWallet([Msg(SECOND), Msg(THIRD)]);
    FinalWire();
    LastEventIsLate();
  }

  lemma FinalWire()
    requires MailOk(LateAnswered())
    ensures Received(LateAnswered(), 2, 0, Wallet) == [Msg(THIRD), Msg(SECOND)]
    ensures !HandedInOrder(LateAnswered())
  {
    var r := LateAnswered();
    assert ParcelOk(r, 0) && ParcelOk(r, 1);
    assert Contents(r, 1) == [Msg(THIRD)] && Contents(r, 0) == [Msg(SECOND)];
    hide Contents, MailOk;
    assert Received(r, 0, 0, Wallet) == [];
    assert Received(r, 1, 0, Wallet) == [Msg(THIRD)];
    assert r.mail.outbox[r.mail.wire[0]].SameLane(r.mail.outbox[r.mail.wire[1]]);
  }

  lemma LastEventIsLate()
    ensures Overtaken().m.RefsOk() && WireOk(Overtaken().mail) && Overtaking(Overtaken(), RoomLeft(2, true), 0)
  {
    var mail := Overtaken().mail;
    assert mail.wire[0] == 1 && mail.outbox[1].SameLane(mail.outbox[0]);
    assert AnswersLate(Overtaken(), RoomLeft(2, true));
    hide PassesBuffered;
  }
}
