/**
 In-order handover as sockets see it. Two things put a message ahead of an older
 one for the same role of the same channel: a direct write while another message
 is buffered, and an owed answer that is given after something newer was sent.
 Over every run the order holds exactly as long as neither happens. What leads
 there is a foreign seat, or anything sent while an older answer is still owed.
 */
module RelayWire {
  import opened Options
  import opened RelayTypes
  import opened ManagerSpec
  import opened ManagerSafety
  import opened ManagerOps
  import opened ManagerRouting
  import opened ManagerSteps
  import opened ManagerEffects
  import opened ManagerAnswers
  import opened ManagerLogs
  import opened DeliveryOrder
  import opened ManagerOrder
  import opened Mails
  import opened RelaySpec
  import opened RelaySteps
  import opened RelaySafety
  import opened RelayHistory
  import opened RelayMail
  import opened RelayFates
  import opened RelayOrder

  /** Every queue is in order, and sockets were sent each lane's parcels in order. */
  ghost predicate HandedInOrder(r: Relay) {
    AllInOrder(r.m) && WireOk(r.mail) && WireSorted(r.mail)
  }

  /** The event writes a message at once while another one waits for its role. */
  ghost predicate PassesBuffered(r: Relay, e: Event, now: nat)
    requires r.m.RefsOk()
  {
    && e.MessageSent? && e.s in r.sockets && e.s in r.sessions
    && PassesWaiting(r.m, e.id, e.s, e.data, r.sessions[e.s].ip, r.Receivable(), now)
  }

  /** The previous room has been left and the owed answer goes to a live socket, but newer messages of the lane went
      ahead of it. */
  ghost predicate AnswersLate(r: Relay, e: Event)
    requires WireOk(r.mail)
  {
    && e.RoomLeft? && e.ok && r.Alive(e.s)
    && Owed(r, e.s).Some? && Owed(r, e.s).value.parcel < |r.mail.outbox|
    && Outrun(r.mail, Owed(r, e.s).value.parcel)
  }

  ghost predicate Overtaking(r: Relay, e: Event, now: nat)
    requires r.m.RefsOk() && WireOk(r.mail)
  {
    PassesBuffered(r, e, now) || AnswersLate(r, e)
  }

  /** The event sends something while an answer with older messages of the lane is still owed. */
  ghost predicate PassesOwed(r: Relay, e: Event)
    requires r.m.RefsOk()
  {
    match Posts(r, e)
    case Some(p) => p.standing.Reached? && Pending(r.mail, p.ref, p.role, |r.mail.outbox|, r.AliveSockets())
    case None =>
      match Resolves(r, e)
      case Some(q) =>
        && q.sent && q.parcel < |r.mail.outbox|
        && var p := r.mail.outbox[q.parcel];
           Pending(r.mail, p.ref, p.role, q.parcel, r.AliveSockets())
      case None => false
  }

  // ---------- One event ----------

  lemma DropKeepsQueues(r: Relay, slow: Option<SocketId>, now: nat)
    requires r.m.RefsOk() && Sound(r.m, now) && AllInOrder(r.m)
    ensures AllInOrder(DropSlow(r, slow, now).m)
  {
    hide Sound, AllInOrder, Disconnect, ApplyAll;
    if slow.Some? {
      var ops := DisconnectOps(r, slow.value, now);
      ApplyAllKeepsOrder(r.m, ops, now);
    }
  }

  lemma MessageKeepsQueuesIff(r: Relay, s: SocketId, id: ChannelId, data: Payload, now: nat)
    requires r.m.RefsOk() && Inv(r, now) && AllInOrder(r.m) && s in r.sockets && s in r.sessions
    ensures AllInOrder(OnMessage(r, s, id, data, now).0.m) <==>
              !PassesWaiting(r.m, id, s, data, r.sessions[s].ip, r.Receivable(), now)
  {
    InvShape(r, now);
    hide Route, Shape, Sound, Tidy, AllInOrder, WritesNow, DropSlow, Post;
    var (m', result) := Route(r.m, id, s, data, r.sessions[s].ip, r.Receivable(), now);
    RouteKeepsOrderIff(r.m, id, s, data, r.sessions[s].ip, r.Receivable(), now);
    WritesDirectlyIff(r.m, id, s, data, r.sessions[s].ip, r.Receivable(), now);
    if result.target.Some? {
      hide OnMessage;
      DirectMessage(r, s, id, data, now);
    } else {
      RouteKeepsSound(r.m, id, s, data, r.sessions[s].ip, r.Receivable(), now);
      DropKeepsQueues(r.(m := m'), result.backpressured, now);
    }
  }

  lemma HandleKeepsQueuesIff(r: Relay, e: Event, now: nat)
    requires r.m.RefsOk() && Inv(r, now) && AllInOrder(r.m)
    ensures AllInOrder(Handle(r, e, now).m) <==> !PassesBuffered(r, e, now)
  {
    assert Sound(r.m, now);
    if e.MessageSent? {
      if e.s in r.sockets && e.s in r.sessions {
        MessageKeepsQueuesIff(r, e.s, e.id, e.data, now);
      }
      hide Sound, Inv, AllInOrder, Route, PassesWaiting;
    } else {
      hide Handle, ApplyAll, Sound, Inv, AllInOrder;
      var ops := HandleOps(r, e, now);
      ApplyAllKeepsOrder(r.m, ops, now);
    }
  }

  lemma HandleKeepsWireIff(r: Relay, e: Event, now: nat)
    requires r.m.RefsOk() && Inv(r, now) && MailOk(r) && InWireOrder(r.mail, r.AliveSockets())
    ensures WireOk(Handle(r, e, now).mail)
    ensures InWireOrder(Handle(r, e, now).mail, Handle(r, e, now).AliveSockets()) <==> !PassesOwed(r, e)
  {
    hide Handle, Inv, Posts, WireOk, InWireOrder, Pending, HandsOver, OnlyDiscards, Send, Settle, Covered, Apart;
    var after, alive := Handle(r, e, now), r.AliveSockets();
    HandlePosts(r, e, now);
    match Posts(r, e)
    case Some(p) =>
      SendKeepsOrderIff(r.mail, ParcelFor(r, after, p), alive);
      assert after.AliveSockets() == alive;
    case None =>
      match Resolves(r, e)
      case Some(q) =>
        assert OwingOk(r, q.s, Owed(r, q.s).value);
        SettleKeepsOrderIff(r.mail, q.parcel, q.sent, alive);
        assert after.AliveSockets() == alive;
      case None =>
        forall k: nat | k < |r.mail.outbox| && r.mail.outbox[k].to in after.AliveSockets()
          ensures r.mail.outbox[k].to in alive
        {
          assert ParcelOk(r, k);
        }
        FewerAliveKeepsOrder(r.mail, alive, after.AliveSockets());
  }

  lemma HandleKeepsSortedIff(r: Relay, e: Event, now: nat)
    requires r.m.RefsOk() && Inv(r, now) && MailOk(r) && WireSorted(r.mail)
    ensures WireOk(Handle(r, e, now).mail)
    ensures WireSorted(Handle(r, e, now).mail) <==> !AnswersLate(r, e)
  {
    hide Handle, Inv, Posts, WireOk, WireSorted, Outrun, HandsOver, OnlyDiscards, Send, Settle, Covered, Apart;
    var after := Handle(r, e, now);
    HandlePosts(r, e, now);
    match Posts(r, e)
    case Some(p) =>
      SendKeepsSorted(r.mail, ParcelFor(r, after, p));
      PostersAnswerNothing(r, e);
    case None =>
      if e.RoomLeft? && Owed(r, e.s).Some? {
        var q := Resolves(r, e).value;
        assert OwingOk(r, q.s, Owed(r, q.s).value);
        SettleKeepsSortedIff(r.mail, q.parcel, q.sent);
      }
  }

  lemma PostersAnswerNothing(r: Relay, e: Event)
    requires r.m.RefsOk() && Posts(r, e).Some?
    ensures !e.RoomLeft?
  {
  }

  /** One event keeps every role's messages in order exactly when it overtakes nothing. */
  lemma StepHandoverIff(r: Relay, t: Timed)
    requires r.m.RefsOk() && Inv(r, r.clock) && MailOk(r) && HandedInOrder(r)
    ensures HandedInOrder(Step(r, t)) <==> !Overtaking(r, t.event, r.clock + t.elapsed)
  {
    hide Inv, MailOk, Handle, AllInOrder, WireOk, WireSorted, PassesBuffered, AnswersLate;
    var now := r.clock + t.elapsed;
    InvLater(r, r.clock, now);
    HandleKeepsQueuesIff(r, t.event, now);
    MailIsSent(r);
    HandleKeepsSortedIff(r, t.event, now);
  }

  lemma MailIsSent(r: Relay)
    requires MailOk(r)
    ensures WireOk(r.mail)
  {
  }

  // ---------- What leads to overtaking ----------

  /** Nothing waits for an idle live participant, all is in order, and nothing was sent past an answer still owed. */
  ghost predicate Unpassed(r: Relay)
    requires r.m.RefsOk()
  {
    Prompt(r) && AllInOrder(r.m) && WireOk(r.mail) && InWireOrder(r.mail, r.AliveSockets())
  }

  /** One event keeps that exactly when it seats no foreign writer and sends nothing past an owed answer. */
  lemma StepUnpassedIff(r: Relay, t: Timed)
    requires r.m.RefsOk() && Inv(r, r.clock) && MailOk(r) && Unpassed(r)
    ensures Unpassed(Step(r, t)) <==>
              !EntersForeign(r, t.event, r.clock + t.elapsed) && !PassesOwed(r, t.event)
  {
    hide MailOk, Step, AllInOrder, Prompt, WireOk, InWireOrder, PassesOwed, EntersForeign, Relay.AliveSockets;
    StepOrderedIff(r, t);
    StepKeepsWireIff(r, t);
  }

  lemma StepKeepsWireIff(r: Relay, t: Timed)
    requires r.m.RefsOk() && Inv(r, r.clock) && MailOk(r) && InWireOrder(r.mail, r.AliveSockets())
    ensures WireOk(Step(r, t).mail)
    ensures InWireOrder(Step(r, t).mail, Step(r, t).AliveSockets()) <==> !PassesOwed(r, t.event)
  {
    hide Inv, MailOk, Handle, WireOk, InWireOrder, PassesOwed;
    var now := r.clock + t.elapsed;
    InvLater(r, r.clock, now);
    HandleKeepsWireIff(r, t.event, now);
    assert Step(r, t).AliveSockets() == Handle(r, t.event, now).AliveSockets();
  }

  lemma InvShape(r: Relay, now: nat)
    requires Inv(r, now)
    ensures r.m.RefsOk() && Shape(r.m, now)
  {
  }

  // ---------- Every run ----------

  ghost predicate OvertakingAt(limits: Limits, run: seq<Timed>, k: nat)
    requires k < |run|
  {
    var r := StateAt(limits, run, k);
    WireOk(r.mail) && Overtaking(r, run[k].event, r.clock + run[k].elapsed)
  }

  /** At this event the conditions for overtaking arise: a foreign seat, or something sent past an owed answer. */
  ghost predicate SlippingAt(limits: Limits, run: seq<Timed>, k: nat)
    requires k < |run|
  {
    var r := StateAt(limits, run, k);
    EntersForeign(r, run[k].event, r.clock + run[k].elapsed) || PassesOwed(r, run[k].event)
  }

  lemma EmptyInOrder(limits: Limits, run: seq<Timed>)
    ensures HandedInOrder(StateAt(limits, run, 0)) && Unpassed(StateAt(limits, run, 0))
  {
    StartsEmpty(limits, run);
  }

  /** Over every run the order holds in every state up to the n-th exactly if none of its first n events overtakes. */
  lemma {:induction false} RunHandoverIff(limits: Limits, run: seq<Timed>, n: nat)
    requires n <= |run|
    ensures (forall k: nat :: k <= n ==> HandedInOrder(StateAt(limits, run, k))) <==>
            (forall k: nat :: k < n ==> !OvertakingAt(limits, run, k))
  {
    hide StateAt, Step, Inv, MailOk, HandedInOrder, Overtaking, WireOk;
    if n == 0 {
      EmptyInOrder(limits, run);
    } else {
      RunHandoverIff(limits, run, n - 1);
      StateAtInv(limits, run, n - 1);
      RunKeepsMail(limits, run, n - 1);
      StateNext(limits, run, n - 1);
      MailIsSent(StateAt(limits, run, n - 1));
      if HandedInOrder(StateAt(limits, run, n - 1)) {
        StepHandoverIff(StateAt(limits, run, n - 1), run[n - 1]);
      }
      assert OvertakingAt(limits, run, n - 1) ==
             Overtaking(StateAt(limits, run, n - 1), run[n - 1].event,
                        StateAt(limits, run, n - 1).clock + run[n - 1].elapsed);
    }
  }

  /** Over every run, likewise, for the conditions that lead to overtaking. */
  lemma {:induction false} RunUnpassedIff(limits: Limits, run: seq<Timed>, n: nat)
    requires n <= |run|
    ensures (forall k: nat :: k <= n ==> Unpassed(StateAt(limits, run, k))) <==>
            (forall k: nat :: k < n ==> !SlippingAt(limits, run, k))
  {
    hide StateAt, Step, Inv, MailOk, Unpassed, EntersForeign, PassesOwed;
    if n == 0 {
      EmptyInOrder(limits, run);
    } else {
      RunUnpassedIff(limits, run, n - 1);
      if Unpassed(StateAt(limits, run, n - 1)) {
        StateAtInv(limits, run, n - 1);
        RunKeepsMail(limits, run, n - 1);
        StateNext(limits, run, n - 1);
        StepUnpassedIff(StateAt(limits, run, n - 1), run[n - 1]);
      }
      assert SlippingAt(limits, run, n - 1) ==
             (EntersForeign(StateAt(limits, run, n - 1), run[n - 1].event,
                            StateAt(limits, run, n - 1).clock + run[n - 1].elapsed) ||
              PassesOwed(StateAt(limits, run, n - 1), run[n - 1].event));
    }
  }

  /** A run overtakes nothing unless at some event a foreign writer was seated or something was sent past an owed
      answer. */
  lemma OvertakingNeedsSlip(limits: Limits, run: seq<Timed>, n: nat)
    requires n <= |run| && forall k: nat :: k < n ==> !SlippingAt(limits, run, k)
    ensures forall k: nat :: k < n ==> !OvertakingAt(limits, run, k)
  {
    RunUnpassedIff(limits, run, n);
    forall k: nat | k <= n ensures HandedInOrder(StateAt(limits, run, k)) {
      assert Unpassed(StateAt(limits, run, k));
    }
    hide StateAt, SlippingAt, OvertakingAt, HandedInOrder, Unpassed;
    RunHandoverIff(limits, run, n);
  }

  // ---------- What sockets have received ----------

  predicate OnLane(mail: Mail, k: nat, ref: nat, role: ClientType) {
    k < |mail.outbox| && mail.outbox[k].ref == ref && mail.outbox[k].role == role
  }

  /** The messages for a role of one object that have reached sockets, in the order they were sent. */
  ghost function Received(r: Relay, n: nat, ref: nat, role: ClientType): seq<Message>
    requires MailOk(r) && n <= |r.mail.wire|
  {
    if n == 0 then []
    else
      var k := r.mail.wire[n - 1];
      assert ParcelOk(r, k);
      Received(r, n - 1, ref, role) + if OnLane(r.mail, k, ref, role) then Contents(r, k) else []
  }

  /** `a` is what is left of `b` after deleting some of its elements. */
  ghost predicate InSequence(a: seq<Message>, b: seq<Message>) {
    exists at: seq<nat> :: Places(at, a, b)
  }

  ghost predicate Places(at: seq<nat>, a: seq<Message>, b: seq<Message>) {
    && |at| == |a|
    && (forall i :: 0 <= i < |a| ==> at[i] < |b| && a[i] == b[at[i]])
    && (forall i, j :: 0 <= i < j < |a| ==> at[i] < at[j])
  }

  function Stretch(from: nat, upto: nat): (at: seq<nat>)
    requires from <= upto
    ensures |at| == upto - from && forall i :: 0 <= i < |at| ==> at[i] == from + i
  {
    seq(upto - from, i => from + i)
  }

  /** The position lies in a parcel of the lane that is among the first `n` on the wire. */
  ghost predicate SentBefore(mail: Mail, n: nat, ref: nat, role: ClientType, x: nat)
    requires n <= |mail.wire|
  {
    exists a: nat :: a < n && OnLane(mail, mail.wire[a], ref, role)
                     && mail.outbox[mail.wire[a]].from <= x < mail.outbox[mail.wire[a]].upto
  }

  /** A later parcel of the lane starts behind everything sent before it. */
  lemma LaterStartsBehind(r: Relay, n: nat, ref: nat, role: ClientType, x: nat)
    requires MailOk(r) && WireSorted(r.mail) && n < |r.mail.wire|
    requires OnLane(r.mail, r.mail.wire[n], ref, role) && SentBefore(r.mail, n, ref, role, x)
    ensures x < r.mail.outbox[r.mail.wire[n]].from
  {
    var a: nat :| a < n && OnLane(r.mail, r.mail.wire[a], ref, role)
                  && r.mail.outbox[r.mail.wire[a]].from <= x < r.mail.outbox[r.mail.wire[a]].upto;
    assert r.mail.outbox[r.mail.wire[a]].SameLane(r.mail.outbox[r.mail.wire[n]]);
  }

  lemma PlacesThenStretch(at: seq<nat>, a: seq<Message>, b: seq<Message>, from: nat, upto: nat)
    requires Places(at, a, b) && from <= upto <= |b|
    requires forall i :: 0 <= i < |at| ==> at[i] < from
    ensures Places(at + Stretch(from, upto), a + b[from..upto], b)
  {
  }

  lemma ContentsInLog(r: Relay, k: nat)
    requires k < |r.mail.outbox| && ParcelOk(r, k)
    ensures var p := r.mail.outbox[k];
            p.from <= p.upto <= |Log(r.m, p.ref)| && Contents(r, k) == Plain(Log(r.m, p.ref))[p.from..p.upto]
  {
  }

  lemma ReceivedUnfolds(r: Relay, n: nat, ref: nat, role: ClientType)
    requires MailOk(r) && n <= |r.mail.wire|
    ensures n == 0 ==> Received(r, n, ref, role) == [] && Places([], [], Plain(Log(r.m, ref)))
    ensures n > 0 ==>
              var k := r.mail.wire[n - 1];
              k < |r.mail.outbox| && ParcelOk(r, k) &&
              var sent := Received(r, n - 1, ref, role);
              Received(r, n, ref, role) == if OnLane(r.mail, k, ref, role) then sent + Contents(r, k) else sent
  {
    hide Contents, Plain, Log;
    if n > 0 {
      assert r.mail.wire[n - 1] < |r.mail.outbox|;
    }
  }

  lemma SentBeforeGrows(mail: Mail, n: nat, ref: nat, role: ClientType)
    requires 0 < n <= |mail.wire|
    ensures forall x: nat :: SentBefore(mail, n - 1, ref, role, x) ==> SentBefore(mail, n, ref, role, x)
    ensures OnLane(mail, mail.wire[n - 1], ref, role) ==>
              var p := mail.outbox[mail.wire[n - 1]];
              forall x: nat :: p.from <= x < p.upto ==> SentBefore(mail, n, ref, role, x)
  {
  }

  /** Where in the settlement log the received messages are. */
  lemma {:induction false} ReceivedFromLog(r: Relay, n: nat, ref: nat, role: ClientType) returns (at: seq<nat>)
    requires MailOk(r) && WireSorted(r.mail) && n <= |r.mail.wire|
    ensures Places(at, Received(r, n, ref, role), Plain(Log(r.m, ref)))
    ensures forall i :: 0 <= i < |at| ==> SentBefore(r.mail, n, ref, role, at[i])
  {
    hide MailOk, WireSorted, ParcelOk, Places, Contents, Received, Plain, Log, Stretch, SentBefore;
    ReceivedUnfolds(r, n, ref, role);
    if n == 0 {
      return [];
    }
    var k := r.mail.wire[n - 1];
    at := ReceivedFromLog(r, n - 1, ref, role);
    SentBeforeGrows(r.mail, n, ref, role);
    if OnLane(r.mail, k, ref, role) {
      var p := r.mail.outbox[k];
      forall i | 0 <= i < |at| ensures at[i] < p.from {
        LaterStartsBehind(r, n - 1, ref, role, at[i]);
      }
      ContentsInLog(r, k);
      PlacesThenStretch(at, Received(r, n - 1, ref, role), Plain(Log(r.m, ref)), p.from, p.upto);
      at := at + Stretch(p.from, p.upto);
    }
  }

  /** An element for the role keeps its place among the elements for the role. */
  lemma ForAt(ms: seq<Message>, i: nat, role: ClientType)
    requires i < |ms| && ms[i].target == role
    ensures |For(ms[..i], role)| < |For(ms, role)|
    ensures For(ms, role)[|For(ms[..i], role)|] == ms[i]
  {
    assert ms == ms[..i] + ([ms[i]] + ms[i + 1..]);
    PickConcat(ms[..i], [ms[i]] + ms[i + 1..], ForRole(role), true);
    PickConcat([ms[i]], ms[i + 1..], ForRole(role), true);
    ForOne(ms[i], role);
    hide Pick;
  }

  lemma ForBefore(ms: seq<Message>, i: nat, j: nat, role: ClientType)
    requires i < j < |ms| && ms[i].target == role
    ensures |For(ms[..i], role)| < |For(ms[..j], role)|
  {
    assert ms[..j][..i] == ms[..i];
    ForAt(ms[..j], i, role);
  }

  /** Elements for the role found in sequence are found in sequence among the elements for the role. */
  lemma FilterPlaces(at: seq<nat>, a: seq<Message>, ms: seq<Message>, role: ClientType)
    requires Places(at, a, ms) && forall m :: m in a ==> m.target == role
    ensures InSequence(a, For(ms, role))
  {
    var ranks := seq(|at|, i requires 0 <= i < |at| => |For(ms[..at[i]], role)|);
    forall i | 0 <= i < |a| ensures ranks[i] < |For(ms, role)| && a[i] == For(ms, role)[ranks[i]] {
      ForAt(ms, at[i], role);
    }
    forall i, j | 0 <= i < j < |a| ensures ranks[i] < ranks[j] {
      ForBefore(ms, at[i], at[j], role);
    }
    assert Places(ranks, a, For(ms, role));
  }

  lemma {:induction false} ReceivedForRole(r: Relay, n: nat, ref: nat, role: ClientType)
    requires MailOk(r) && n <= |r.mail.wire|
    ensures forall m :: m in Received(r, n, ref, role) ==> m.target == role
  {
    if n > 0 {
      var k := r.mail.wire[n - 1];
      ReceivedForRole(r, n - 1, ref, role);
      assert ParcelOk(r, k);
      if OnLane(r.mail, k, ref, role) {
        forall m | m in Contents(r, k) ensures m.target == role {
          var p := r.mail.outbox[k];
          var i :| 0 <= i < |Contents(r, k)| && Contents(r, k)[i] == m;
          assert EntryOk(Log(r.m, ref)[p.from + i], p);
        }
      }
    }
  }

  lemma OrderOf(r: Relay, ref: nat, role: ClientType)
    requires HandedInOrder(r) && ref < |r.m.store|
    ensures WireSorted(r.mail) && Log(r.m, ref) == r.m.store[ref].settled
    ensures InOrder(r.m.store[ref], role)
  {
    assert ChanInOrder(r.m.store[ref]);
  }

  lemma InSequenceOfLonger(a: seq<Message>, b: seq<Message>, rest: seq<Message>)
    requires InSequence(a, b)
    ensures InSequence(a, b + rest)
  {
    var at: seq<nat> :| Places(at, a, b);
    assert Places(at, a, b + rest);
  }

  /** In a state in order, what sockets received for a role is what was accepted for it, minus some, in order. */
  lemma ReceivedInSequence(r: Relay, ref: nat, role: ClientType)
    requires MailOk(r) && HandedInOrder(r) && ref < |r.m.store|
    ensures InSequence(Received(r, |r.mail.wire|, ref, role), For(r.m.store[ref].accepted, role))
  {
    hide MailOk, HandedInOrder, WireSorted, Received, Pick, Plain, Log, InSequence, Places, SentBefore;
    var c, n := r.m.store[ref], |r.mail.wire|;
    OrderOf(r, ref, role);
    var at := ReceivedFromLog(r, n, ref, role);
    ReceivedForRole(r, n, ref, role);
    FilterPlaces(at, Received(r, n, ref, role), Plain(c.settled), role);
    InSequenceOfLonger(Received(r, n, ref, role), For(Plain(c.settled), role), For(c.buffer, role));
  }

  /** In a run that overtakes nothing, each role's messages leave every channel object in the order they were accepted,
      the rest being the tail still buffered, and reach sockets in that order. */
  lemma HandoverInOrder(limits: Limits, run: seq<Timed>, ref: nat, role: ClientType)
    requires forall k: nat :: k < |run| ==> !OvertakingAt(limits, run, k)
    requires ref < |StateAt(limits, run, |run|).m.store|
    ensures var r := StateAt(limits, run, |run|);
            var c := r.m.store[ref];
            && For(c.accepted, role) == For(Plain(c.settled), role) + For(c.buffer, role)
            && MailOk(r)
            && InSequence(Received(r, |r.mail.wire|, ref, role), For(c.accepted, role))
  {
    RunHandoverIff(limits, run, |run|);
    RunKeepsMail(limits, run, |run|);
    ReceivedInSequence(StateAt(limits, run, |run|), ref, role);
    assert ChanInOrder(StateAt(limits, run, |run|).m.store[ref]);
    hide StateAt, Received, MailOk, Pick, InSequence;
  }

  lemma {:induction false} NeverForeignPrefix(r: Relay, run: seq<Timed>, k: nat)
    requires r.m.RefsOk() && k <= |run| && NeverForeign(r, run)
    ensures NeverForeign(r, run[..k])
    decreases |run|
  {
    hide EntersForeign, Run;
    if k == |run| {
      assert run[..k] == run;
    } else {
      NeverForeignPrefix(r, run[..|run| - 1], k);
      assert run[..|run| - 1][..k] == run[..k];
    }
  }

  /** Before every event of a run without foreign seats, nothing would be written past a waiting message. */
  lemma NeverPassesBuffered(limits: Limits, run: seq<Timed>, k: nat)
    requires NeverForeign(EmptyRelay(limits), run) && k < |run|
    ensures var r := StateAt(limits, run, k); !PassesBuffered(r, run[k].event, r.clock + run[k].elapsed)
  {
    var r, e := StateAt(limits, run, k), run[k].event;
    var now := r.clock + run[k].elapsed;
    NeverForeignPrefix(EmptyRelay(limits), run, k);
    RunOrdered(limits, run[..k]);
    StateAtInv(limits, run, k);
    InvLater(r, r.clock, now);
    InvShape(r, now);
    hide StateAt, Inv, PassesWaiting, Shape, AllInOrder, NeverForeign;
    assert Prompt(r) by {
      StateAtIsRun(limits, run, k);
    }
    if e.MessageSent? && e.s in r.sessions {
      PromptNeverPasses(r, e.s, e.id, e.data, now);
    }
  }

  lemma StateAtIsRun(limits: Limits, run: seq<Timed>, k: nat)
    requires k <= |run|
    ensures StateAt(limits, run, k) == Run(EmptyRelay(limits), run[..k])
  {
  }

  /** Without foreign seats a run is in order throughout exactly if no owed answer is given late. */
  lemma ForeignFreeHandoverIff(limits: Limits, run: seq<Timed>)
    requires NeverForeign(EmptyRelay(limits), run)
    ensures (forall k: nat :: k <= |run| ==> HandedInOrder(StateAt(limits, run, k))) <==>
            (forall k: nat :: k < |run| ==>
               WireOk(StateAt(limits, run, k).mail) && !AnswersLate(StateAt(limits, run, k), run[k].event))
  {
    hide StateAt, HandedInOrder, PassesBuffered, AnswersLate, NeverForeign, WireOk, MailOk;
    RunHandoverIff(limits, run, |run|);
    forall k: nat | k < |run|
      ensures WireOk(StateAt(limits, run, k).mail)
      ensures OvertakingAt(limits, run, k) <==> AnswersLate(StateAt(limits, run, k), run[k].event)
    {
      RunKeepsMail(limits, run, k);
      MailIsSent(StateAt(limits, run, k));
      NeverPassesBuffered(limits, run, k);
    }
  }
}
