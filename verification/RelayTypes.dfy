/**
 Values shared by the relay's channel manager and its server: identifiers,
 payloads, buffered messages and reservations. Identifiers are tokens that are
 only ever compared for equality.
 */
module RelayTypes {
  import opened Options

  type SocketId = nat
  type ChannelId = nat
  type Ip = nat
  type Key = nat

  const CHANNEL_TTL_MS := 30 * 60 * 1000
  const MAX_PARTICIPANTS := 2
  const MAX_BUFFERED_MESSAGES := 50
  const BUFFER_TTL_MS := 5 * 60 * 1000
  const TOMBSTONE_TTL_MS := 24 * 60 * 60 * 1000
  const MAX_TOMBSTONES := 20000

  datatype ClientType = Dapp | Wallet

  function Other(role: ClientType): ClientType {
    if role.Dapp? then Wallet else Dapp
  }

  /** Byte budgets, the optional per-address channel cap and the server's channel admission cap. */
  datatype Limits =
    Limits(perChannel: nat, perIp: nat, total: nat, maxChannelsPerIp: Option<nat>, maxActiveChannels: nat)

  /** A relayed payload. `bytes` is its serialised size, `None` when it does not serialise. */
  datatype Payload = Payload(body: nat, clientType: ClientType, seqNo: Option<nat>, bytes: Option<Pos>)

  /** A payload accepted for one role, with the size and the address it is accounted to. */
  datatype Message = Message(data: Payload, target: ClientType, timestamp: nat, size: Pos, sourceIp: Ip)

  /** How an accepted message left the channel. A returned one went into a join's answer, which may still be lost. */
  datatype Fate = Handed | Promoted | Returned | Evicted | Expired | Dropped

  datatype Settled = Settled(message: Message, fate: Fate)

  /** The one live write outstanding for a socket, on the channel object `channel`. */
  datatype Reservation<Ref> = Reservation(channel: Ref, sourceIp: Ip, size: Pos)

  /** What a dApp presented as its key, after base64 decoding. */
  datatype KeyOffer = Absent | Malformed(error: KeyError) | Decoded(key: Key)

  datatype KeyError = NotBase64 | EmptyKey | OversizedKey

  datatype JoinError =
    | BadKey(error: KeyError)
    | TooManyChannels | KeyRequired | RoleChange | AlreadyConnected | ChannelFull | KeyMismatch

  datatype JoinResult =
    | Joined(messages: seq<Payload>, publicKey: Option<Key>, roster: seq<ClientType>, terminated: bool)
    | Refused(error: JoinError)

  datatype RouteError =
    | ChannelNotFound | ChannelTerminated | SenderNotInChannel | WrongClientType | Replayed
    | NotSerializable | ChannelBudget | IpBudget | GlobalBudget

  datatype RouteResult =
    RouteResult(target: Option<SocketId>, backpressured: Option<SocketId>, buffered: bool, error: Option<RouteError>)

  /** Which messages of a buffer an operation removes. */
  datatype Sieve = ForRole(role: ClientType) | OlderThan(now: nat) {
    predicate Takes(m: Message) {
      match this
      case ForRole(r) => m.target == r
      case OlderThan(t) => t - m.timestamp >= BUFFER_TTL_MS
    }
  }

  /** The messages of `ms`, in order, that the sieve takes (or those it leaves). */
  function Pick(ms: seq<Message>, sieve: Sieve, taken: bool): (r: seq<Message>)
    ensures |r| <= |ms|
    ensures forall m :: m in r ==> m in ms && sieve.Takes(m) == taken
  {
    if ms == [] then []
    else
      var init, last := ms[..|ms| - 1], ms[|ms| - 1];
      Pick(init, sieve, taken) + if sieve.Takes(last) == taken then [last] else []
  }

  /** The messages of `ms` addressed to `role`, in order. */
  function For(ms: seq<Message>, role: ClientType): seq<Message> {
    Pick(ms, ForRole(role), true)
  }

  function Payloads(ms: seq<Message>): (r: seq<Payload>)
    ensures |r| == |ms| && forall i :: 0 <= i < |ms| ==> r[i] == ms[i].data
  {
    seq(|ms|, i requires 0 <= i < |ms| => ms[i].data)
  }

  /** The messages behind a settlement log. */
  function Plain(log: seq<Settled>): (r: seq<Message>)
    ensures |r| == |log| && forall i :: 0 <= i < |log| ==> r[i] == log[i].message
  {
    seq(|log|, i requires 0 <= i < |log| => log[i].message)
  }

  function Tag(ms: seq<Message>, fate: Fate): (r: seq<Settled>)
    ensures |r| == |ms| && forall i :: 0 <= i < |ms| ==> r[i] == Settled(ms[i], fate)
  {
    seq(|ms|, i requires 0 <= i < |ms| => Settled(ms[i], fate))
  }

  lemma PickSnoc(ms: seq<Message>, m: Message, sieve: Sieve, taken: bool)
    ensures Pick(ms + [m], sieve, taken) == Pick(ms, sieve, taken) + if sieve.Takes(m) == taken then [m] else []
  {
    assert (ms + [m])[..|ms|] == ms;
  }

  lemma {:induction false} PickConcat(a: seq<Message>, b: seq<Message>, sieve: Sieve, taken: bool)
    ensures Pick(a + b, sieve, taken) == Pick(a, sieve, taken) + Pick(b, sieve, taken)
  {
    if b == [] {
      assert a + b == a;
    } else {
      var init, last := b[..|b| - 1], b[|b| - 1];
      assert (a + b)[..|a + b| - 1] == a + init;
      PickConcat(a, init, sieve, taken);
    }
  }

  /** A sieve splits a buffer into two parts that together hold exactly its messages. */
  lemma {:induction false} PickPartitions(ms: seq<Message>, sieve: Sieve)
    ensures multiset(ms) == multiset(Pick(ms, sieve, true)) + multiset(Pick(ms, sieve, false))
  {
    if ms != [] {
      var init, last := ms[..|ms| - 1], ms[|ms| - 1];
      assert ms == init + [last];
      PickPartitions(init, sieve);
    }
  }

  lemma {:induction false} PickAll(ms: seq<Message>, sieve: Sieve, taken: bool)
    requires forall m :: m in ms ==> sieve.Takes(m) == taken
    ensures Pick(ms, sieve, taken) == ms
    ensures Pick(ms, sieve, !taken) == []
  {
    if ms != [] {
      var init, last := ms[..|ms| - 1], ms[|ms| - 1];
      assert ms == init + [last];
      PickAll(init, sieve, taken);
    }
  }

  lemma PlainTag(log: seq<Settled>, ms: seq<Message>, fate: Fate)
    ensures Plain(log + Tag(ms, fate)) == Plain(log) + ms
  {
  }

  ghost predicate TimeOrdered(ms: seq<Message>) {
    forall i, j :: 0 <= i < j < |ms| ==> ms[i].timestamp <= ms[j].timestamp
  }

  lemma PrefixSnoc(init: seq<Message>, last: Message, sieve: Sieve)
    requires init == Pick(init, sieve, true) + Pick(init, sieve, false) && !sieve.Takes(last)
    ensures init + [last] == Pick(init + [last], sieve, true) + Pick(init + [last], sieve, false)
  {
    PickSnoc(init, last, sieve, true);
    PickSnoc(init, last, sieve, false);
    hide Pick;
    var out, kept := Pick(init, sieve, true), Pick(init, sieve, false);
    assert out + (kept + [last]) == (out + kept) + [last];
  }

  /** In a time-ordered buffer the expired messages are a prefix. */
  lemma {:induction false} ExpiredArePrefix(ms: seq<Message>, now: nat)
    requires TimeOrdered(ms)
    ensures ms == Pick(ms, OlderThan(now), true) + Pick(ms, OlderThan(now), false)
  {
    hide Pick;
    if ms == [] {
      PickAll(ms, OlderThan(now), true);
    } else if OlderThan(now).Takes(ms[|ms| - 1]) {
      assert forall i :: 0 <= i < |ms| ==> ms[i].timestamp <= ms[|ms| - 1].timestamp;
      PickAll(ms, OlderThan(now), true);
    } else {
      ExpiredArePrefix(ms[..|ms| - 1], now);
      PrefixSnoc(ms[..|ms| - 1], ms[|ms| - 1], OlderThan(now));
      assert ms == ms[..|ms| - 1] + [ms[|ms| - 1]];
    }
  }

  /** Removing any sieve's share keeps a buffer time-ordered. */
  lemma {:induction false} PickTimeOrdered(ms: seq<Message>, sieve: Sieve, taken: bool)
    requires TimeOrdered(ms)
    ensures TimeOrdered(Pick(ms, sieve, taken))
  {
    if ms != [] {
      var init, last := ms[..|ms| - 1], ms[|ms| - 1];
      PickTimeOrdered(init, sieve, taken);
      assert forall m :: m in init ==> m.timestamp <= last.timestamp;
    }
  }
}
