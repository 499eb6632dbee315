/**
 Admission slots of the RPC and IPFS proxies. A slot reserves the full response
 allowance and is given back by a closure that works once. Over every
 interleaving of acquisitions and releases the counters are those of the slots
 still held. The IPFS proxy's slots are the ones acquired without a client.
 */
module Slots {
  import opened Options

  type Client = nat

  datatype Caps = Caps(concurrent: Pos, perClient: Pos, inflightBytes: Pos, reservation: Pos)

  datatype Grant = Granted | Busy | ClientBusy

  // ---------- The reference: nothing but the slots held ----------

  /** The slots held, by ticket; tickets are never reused. */
  datatype Held = Held(slots: map<nat, Option<Client>>, next: nat) {
    function Of(client: Client): set<nat> {
      set t | t in slots && slots[t] == Some(client)
    }

    function Admits(caps: Caps, client: Option<Client>): Grant {
      if client.Some? && |Of(client.value)| >= caps.perClient then ClientBusy
      else if |slots| >= caps.concurrent || (|slots| + 1) * caps.reservation > caps.inflightBytes then Busy
      else Granted
    }

    function Grown(client: Option<Client>): Held {
      Held(slots[next := client], next + 1)
    }

    function Acquire(caps: Caps, client: Option<Client>): Held {
      if Admits(caps, client) == Granted then Grown(client) else this
    }

    /** Releasing a ticket a second time finds nothing to release. */
    function Release(ticket: nat): Held {
      this.(slots := slots - {ticket})
    }
  }

  // ---------- The counters ----------

  datatype Counters = Counters(active: int, bytes: int, byClient: map<Client, int>)

  function CountOf(byClient: map<Client, int>, client: Client): int {
    if client in byClient then byClient[client] else 0
  }

  function Bump(byClient: map<Client, int>, client: Option<Client>): map<Client, int> {
    if client.None? then byClient else byClient[client.value := CountOf(byClient, client.value) + 1]
  }

  function Drop(byClient: map<Client, int>, client: Option<Client>): map<Client, int> {
    if client.None? then byClient
    else
      var remaining := (if client.value in byClient then byClient[client.value] else 1) - 1;
      if remaining <= 0 then byClient - {client.value} else byClient[client.value := remaining]
  }

  function Taken(caps: Caps, c: Counters, client: Option<Client>): Counters {
    Counters(c.active + 1, c.bytes + caps.reservation, Bump(c.byClient, client))
  }

  function Returned(caps: Caps, c: Counters, client: Option<Client>): Counters {
    Counters(c.active - 1, c.bytes - caps.reservation, Drop(c.byClient, client))
  }

  /** What the counters alone decide. */
  function Decide(caps: Caps, c: Counters, client: Option<Client>): Grant {
    if client.Some? && CountOf(c.byClient, client.value) >= caps.perClient then ClientBusy
    else if c.active >= caps.concurrent || c.bytes + caps.reservation > caps.inflightBytes then Busy
    else Granted
  }

  /** The counters are exactly those of the slots held, and an absent client holds none. */
  ghost predicate Exact(caps: Caps, h: Held, c: Counters) {
    && (forall t :: t in h.slots ==> t < h.next)
    && c.active == |h.slots|
    && c.bytes == |h.slots| * caps.reservation
    && (forall k: Client :: k in c.byClient ==> c.byClient[k] > 0)
    && (forall k: Client :: CountOf(c.byClient, k) == |h.Of(k)|)
  }

  ghost predicate WithinCaps(caps: Caps, h: Held) {
    && |h.slots| <= caps.concurrent
    && |h.slots| * caps.reservation <= caps.inflightBytes
    && (forall k: Client :: |h.Of(k)| <= caps.perClient)
  }

  lemma GrownSize(h: Held, client: Option<Client>)
    requires h.next !in h.slots
    ensures |h.Grown(client).slots| == |h.slots| + 1
  {
    assert h.Grown(client).slots.Keys == h.slots.Keys + {h.next};
    assert |h.Grown(client).slots| == |h.Grown(client).slots.Keys| && |h.slots| == |h.slots.Keys|;
  }

  lemma GrownOf(h: Held, client: Option<Client>, k: Client)
    requires h.next !in h.slots
    ensures |h.Grown(client).Of(k)| == |h.Of(k)| + if client == Some(k) then 1 else 0
  {
    var after := h.Grown(client);
    if client == Some(k) {
      assert after.Of(k) == h.Of(k) + {h.next};
      assert h.next !in h.Of(k);
    } else {
      assert after.Of(k) == h.Of(k);
    }
  }

  lemma ReleaseSize(h: Held, ticket: nat)
    requires ticket in h.slots
    ensures |h.Release(ticket).slots| == |h.slots| - 1
  {
    assert h.slots.Keys == h.Release(ticket).slots.Keys + {ticket};
    assert |h.Release(ticket).slots| == |h.Release(ticket).slots.Keys| && |h.slots| == |h.slots.Keys|;
  }

  lemma ReleaseOf(h: Held, ticket: nat, k: Client)
    requires ticket in h.slots
    ensures |h.Release(ticket).Of(k)| == |h.Of(k)| - if h.slots[ticket] == Some(k) then 1 else 0
  {
    var gone: set<nat> := if h.slots[ticket] == Some(k) then {ticket} else {};
    assert h.Release(ticket).Of(k) == h.Of(k) - gone && gone <= h.Of(k);
  }

  lemma DecidesExactly(caps: Caps, h: Held, c: Counters, client: Option<Client>)
    requires Exact(caps, h, c)
    ensures Decide(caps, c, client) == h.Admits(caps, client)
  {
    assert c.bytes + caps.reservation == (|h.slots| + 1) * caps.reservation;
    if client.Some? {
      assert CountOf(c.byClient, client.value) == |h.Of(client.value)|;
    }
  }

  lemma GrantKeepsClient(caps: Caps, h: Held, c: Counters, client: Option<Client>, k: Client)
    requires h.next !in h.slots && h.Admits(caps, client) == Granted
    requires CountOf(c.byClient, k) == |h.Of(k)| <= caps.perClient
    ensures CountOf(Bump(c.byClient, client), k) == |h.Grown(client).Of(k)| <= caps.perClient
  {
    GrownOf(h, client, k);
  }

  /** The counters decide as the slots held would, and a grant keeps both in step and within the caps. */
  lemma AcquireKeepsExact(caps: Caps, h: Held, c: Counters, client: Option<Client>)
    requires Exact(caps, h, c) && WithinCaps(caps, h)
    ensures Decide(caps, c, client) == h.Admits(caps, client)
    ensures h.Admits(caps, client) == Granted ==>
              Exact(caps, h.Acquire(caps, client), Taken(caps, c, client)) && WithinCaps(caps, h.Acquire(caps, client))
  {
    DecidesExactly(caps, h, c, client);
    if h.Admits(caps, client) == Granted {
      var after := h.Grown(client);
      GrownSize(h, client);
      assert |after.slots| * caps.reservation == |h.slots| * caps.reservation + caps.reservation;
      hide Held.Of, Held.Admits, CountOf;
      forall k: Client
        ensures CountOf(Bump(c.byClient, client), k) == |after.Of(k)| <= caps.perClient
      {
        assert CountOf(c.byClient, k) == |h.Of(k)|;
        GrantKeepsClient(caps, h, c, client, k);
      }
      GrantsCharge(caps, c, client);
      GrantFits(caps, h, client);
    }
  }

  lemma GrantsCharge(caps: Caps, c: Counters, client: Option<Client>)
    requires forall k: Client :: k in c.byClient ==> c.byClient[k] > 0
    ensures forall k: Client :: k in Bump(c.byClient, client) ==> Bump(c.byClient, client)[k] > 0
  {
  }

  lemma GrantFits(caps: Caps, h: Held, client: Option<Client>)
    requires h.Admits(caps, client) == Granted && |h.Grown(client).slots| == |h.slots| + 1
    ensures |h.Grown(client).slots| <= caps.concurrent
    ensures |h.Grown(client).slots| * caps.reservation <= caps.inflightBytes
  {
  }

  /** Giving a held slot back keeps the counters in step: the subtractions never reach below zero. */
  lemma ReleaseKeepsExact(caps: Caps, h: Held, c: Counters, ticket: nat)
    requires Exact(caps, h, c) && WithinCaps(caps, h) && ticket in h.slots
    ensures Exact(caps, h.Release(ticket), Returned(caps, c, h.slots[ticket])) && WithinCaps(caps, h.Release(ticket))
  {
    var client := h.slots[ticket];
    var after, counters := h.Release(ticket), Returned(caps, c, client);
    ReleaseSize(h, ticket);
    assert counters.bytes == |after.slots| * caps.reservation <= caps.inflightBytes;
    forall k: Client
      ensures CountOf(counters.byClient, k) == |after.Of(k)| <= caps.perClient
    {
      ReleaseOf(h, ticket, k);
      assert CountOf(c.byClient, k) == |h.Of(k)| <= caps.perClient;
    }
  }

  // ---------- Over every interleaving ----------

  datatype Op = Take(client: Option<Client>) | GiveBack(ticket: nat)

  datatype State = State(held: Held, counters: Counters)

  /** A closure exists only for a granted ticket; it remembers its client and whether it has run. */
  function Step(caps: Caps, st: State, op: Op): State {
    match op
    case Take(client) =>
      if Decide(caps, st.counters, client) == Granted
      then State(st.held.Acquire(caps, client), Taken(caps, st.counters, client))
      else st
    case GiveBack(ticket) =>
      if ticket in st.held.slots
      then State(st.held.Release(ticket), Returned(caps, st.counters, st.held.slots[ticket]))
      else st
  }

  function Run(caps: Caps, ops: seq<Op>): State {
    if ops == [] then State(Held(map[], 0), Counters(0, 0, map[]))
    else Step(caps, Run(caps, ops[..|ops| - 1]), ops[|ops| - 1])
  }

  /** After any interleaving, repeated releases included, the counters are those of the slots held, within every cap. */
  lemma {:induction false} RunExact(caps: Caps, ops: seq<Op>)
    ensures Exact(caps, Run(caps, ops).held, Run(caps, ops).counters) && WithinCaps(caps, Run(caps, ops).held)
  {
    if ops == [] {
      assert forall k: Client :: Held(map[], 0).Of(k) == {};
    } else {
      hide Exact, WithinCaps;
      var st, op := Run(caps, ops[..|ops| - 1]), ops[|ops| - 1];
      RunExact(caps, ops[..|ops| - 1]);
      match op
      case Take(client) => AcquireKeepsExact(caps, st.held, st.counters, client);
      case GiveBack(ticket) =>
        if ticket in st.held.slots {
          ReleaseKeepsExact(caps, st.held, st.counters, ticket);
        }
    }
  }

  class Slot {
    const client: Option<Client>
    ghost const ticket: nat
    var released: bool

    constructor (client: Option<Client>, ghost ticket: nat)
      ensures this.client == client && this.ticket == ticket && !released
    {
      this.client := client;
      this.ticket := ticket;
      released := false;
    }
  }

  class SlotPool {
    const caps: Caps
    var active: int
    var bytes: int
    var byClient: map<Client, int>
    /** The slots held, and every slot ever granted by ticket. */
    ghost var held: Held
    ghost var granted: seq<Slot>

    ghost predicate Valid()
      reads this, granted
    {
      && Exact(caps, held, View())
      && WithinCaps(caps, held)
      && held.next == |granted|
      && (forall t :: 0 <= t < |granted| ==>
            && granted[t].ticket == t
            && (granted[t].released <==> t !in held.slots)
            && (t in held.slots ==> held.slots[t] == granted[t].client))
    }

    constructor (caps: Caps)
      ensures Valid() && held == Held(map[], 0) && this.caps == caps
    {
      this.caps := caps;
      active := 0;
      bytes := 0;
      byClient := map[];
      held := Held(map[], 0);
      granted := [];
      new;
      assert forall k: Client :: held.Of(k) == {};
    }

    function View(): Counters
      reads `active, `bytes, `byClient
    {
      Counters(active, bytes, byClient)
    }

    method CountIn(client: Option<Client>)
      modifies `active, `bytes, `byClient
      ensures View() == Taken(caps, old(View()), client)
    {
      active := active + 1;
      bytes := bytes + caps.reservation;
      if client.Some? {
        byClient := byClient[client.value := (if client.value in byClient then byClient[client.value] else 0) + 1];
      }
    }

    method CountOut(client: Option<Client>)
      modifies `active, `bytes, `byClient
      ensures View() == Returned(caps, old(View()), client)
    {
      active := active - 1;
      bytes := bytes - caps.reservation;
      if client.Some? {
        var remaining := (if client.value in byClient then byClient[client.value] else 1) - 1;
        if remaining <= 0 {
          byClient := byClient - {client.value};
        } else {
          byClient := byClient[client.value := remaining];
        }
      }
    }

    /** A slot is granted exactly when the slots held leave room for it. */
    method Acquire(client: Option<Client>) returns (grant: Grant, slot: Slot?)
      requires Valid()
      modifies this
      ensures Valid()
      ensures grant == old(held).Admits(caps, client) && held == old(held).Acquire(caps, client)
      ensures if grant == Granted then slot != null && fresh(slot) && granted == old(granted) + [slot]
              else slot == null && granted == old(granted)
    {
      hide Exact, WithinCaps, Taken;
      AcquireKeepsExact(caps, held, View(), client);
      slot := null;
      if client.Some? && (if client.value in byClient then byClient[client.value] else 0) >= caps.perClient {
        return ClientBusy, null;
      }
      if active >= caps.concurrent || bytes + caps.reservation > caps.inflightBytes {
        return Busy, null;
      }
      CountIn(client);
      slot := new Slot(client, |granted|);
      granted := granted + [slot];
      held := held.Acquire(caps, client);
      grant := Granted;
    }

    /** The release closure: the first call gives the slot back, later calls change nothing. */
    method Release(slot: Slot)
      requires Valid() && slot in granted
      modifies this, slot
      ensures Valid() && granted == old(granted)
      ensures held == old(held).Release(slot.ticket)
      ensures old(slot.released) ==> held == old(held)
      ensures slot.released
    {
      hide Exact, WithinCaps, Returned;
      assert slot == granted[slot.ticket];
      if slot.released {
        assert held.slots - {slot.ticket} == held.slots;
        return;
      }
      ReleaseKeepsExact(caps, held, View(), slot.ticket);
      slot.released := true;
      CountOut(slot.client);
      held := held.Release(slot.ticket);
    }
  }
}
