/**
 The byte ledgers: what the relay retains per channel, per source address and in
 total. The relay updates them incrementally and clamps every subtraction at
 zero; the sums below are what the ledgers are meant to equal.
 */
module Ledgers {
  import opened Options
  import opened RelayTypes

  datatype Ledger = Ledger(buffered: int, inflight: int, byIp: map<Ip, int>)

  function AtIp(byIp: map<Ip, int>, ip: Ip): int {
    if ip in byIp then byIp[ip] else 0
  }

  function RetainIp(byIp: map<Ip, int>, ip: Ip, size: int): map<Ip, int> {
    byIp[ip := AtIp(byIp, ip) + size]
  }

  function ReleaseIp(byIp: map<Ip, int>, ip: Ip, size: int): map<Ip, int> {
    var left := AtIp(byIp, ip) - size;
    if left > 0 then byIp[ip := left] else byIp - {ip}
  }

  function RetainBuffered(l: Ledger, ip: Ip, size: int): Ledger {
    l.(buffered := l.buffered + size, byIp := RetainIp(l.byIp, ip, size))
  }

  function RetainInflight(l: Ledger, ip: Ip, size: int): Ledger {
    l.(inflight := l.inflight + size, byIp := RetainIp(l.byIp, ip, size))
  }

  function ReleaseBuffered(l: Ledger, ip: Ip, size: int): Ledger {
    l.(buffered := Max(0, l.buffered - size), byIp := ReleaseIp(l.byIp, ip, size))
  }

  function ReleaseInflight(l: Ledger, ip: Ip, size: int): Ledger {
    l.(inflight := Max(0, l.inflight - size), byIp := ReleaseIp(l.byIp, ip, size))
  }

  /** Releasing buffered messages one after the other. */
  function ReleaseEach(l: Ledger, ms: seq<Message>): Ledger {
    if ms == [] then l
    else
      var last := ms[|ms| - 1];
      ReleaseBuffered(ReleaseEach(l, ms[..|ms| - 1]), last.sourceIp, last.size)
  }

  /** The clamped effect of the same releases on the owning channel's own counter. */
  function ClampEach(bytes: int, ms: seq<Message>): int {
    if ms == [] then bytes
    else Max(0, ClampEach(bytes, ms[..|ms| - 1]) - ms[|ms| - 1].size)
  }

  lemma ReleaseSnoc(l: Ledger, bytes: int, ms: seq<Message>, m: Message)
    ensures ReleaseEach(l, ms + [m]) == ReleaseBuffered(ReleaseEach(l, ms), m.sourceIp, m.size)
    ensures ClampEach(bytes, ms + [m]) == Max(0, ClampEach(bytes, ms) - m.size)
  {
    assert (ms + [m])[..|ms|] == ms;
  }

  lemma ReleaseOne(l: Ledger, bytes: int, m: Message)
    ensures ReleaseEach(l, [m]) == ReleaseBuffered(l, m.sourceIp, m.size)
    ensures ClampEach(bytes, [m]) == Max(0, bytes - m.size)
  {
    assert [m][..0] == [];
  }

  // ---------- Sums over messages and reservations ----------

  /** Bytes of `ms`, restricted to one source address when `ip` is given. */
  function Bytes(ms: seq<Message>, ip: Option<Ip>): nat {
    if ms == [] then 0
    else
      Bytes(ms[..|ms| - 1], ip) + Weight(ms[|ms| - 1], ip)
  }

  lemma {:induction false} BytesConcat(a: seq<Message>, b: seq<Message>, ip: Option<Ip>)
    ensures Bytes(a + b, ip) == Bytes(a, ip) + Bytes(b, ip)
  {
    if b == [] {
      assert a + b == a;
    } else {
      assert (a + b)[..|a + b| - 1] == a + b[..|b| - 1];
      BytesConcat(a, b[..|b| - 1], ip);
    }
  }

  function Weight(m: Message, ip: Option<Ip>): nat {
    if ip == None || ip == Some(m.sourceIp) then m.size else 0
  }

  /** A buffer with the message at `i` taken out. */
  function Without(ms: seq<Message>, i: nat): seq<Message>
    requires i < |ms|
  {
    ms[..i] + ms[i + 1..]
  }

  lemma WithoutSplits(ms: seq<Message>, i: nat)
    requires i < |ms|
    ensures multiset(ms) == multiset(Without(ms, i)) + multiset{ms[i]}
  {
    assert ms == ms[..i] + [ms[i]] + ms[i + 1..];
  }

  lemma BytesWithout(ms: seq<Message>, i: nat, ip: Option<Ip>)
    requires i < |ms|
    ensures Bytes(ms, ip) == Bytes(Without(ms, i), ip) + Weight(ms[i], ip)
  {
    assert ms == ms[..i] + [ms[i]] + ms[i + 1..];
    BytesConcat(ms[..i] + [ms[i]], ms[i + 1..], ip);
    BytesConcat(ms[..i], [ms[i]], ip);
    BytesConcat(ms[..i], ms[i + 1..], ip);
    assert [ms[i]][..0] == [];
  }

  lemma MultisetCancel(all: multiset<Message>, a: multiset<Message>, b: multiset<Message>, m: Message)
    requires all + multiset{m} == a + (b + multiset{m})
    ensures all == a + b
  {
    forall x ensures all[x] == (a + b)[x] {
      assert (all + multiset{m})[x] == (a + (b + multiset{m}))[x];
    }
  }

  lemma OutSplits(init: seq<Message>, last: Message, keep: seq<Message>, out: seq<Message>, i: nat)
    requires multiset(init + [last]) == multiset(keep) + multiset(out) && i < |out| && out[i] == last
    ensures multiset(init) == multiset(keep) + multiset(Without(out, i))
  {
    hide Without;
    WithoutSplits(out, i);
    assert multiset(init + [last]) == multiset(init) + multiset{last};
    MultisetCancel(multiset(init), multiset(keep), multiset(Without(out, i)), last);
  }

  /** Bytes depend only on which messages there are, not on their order. */
  lemma {:induction false} BytesSplit(ms: seq<Message>, keep: seq<Message>, out: seq<Message>, ip: Option<Ip>)
    requires multiset(ms) == multiset(keep) + multiset(out)
    ensures Bytes(ms, ip) == Bytes(keep, ip) + Bytes(out, ip)
    decreases |ms|
  {
    if ms == [] {
      assert |multiset(keep)| == 0 && |multiset(out)| == 0;
    } else {
      var init, last := ms[..|ms| - 1], ms[|ms| - 1];
      assert ms == init + [last];
      assert Bytes(ms, ip) == Bytes(init, ip) + Weight(last, ip);
      hide Without, Bytes, Weight;
      assert last in multiset(ms);
      if last in out {
        var i :| 0 <= i < |out| && out[i] == last;
        OutSplits(init, last, keep, out, i);
        BytesSplit(init, keep, Without(out, i), ip);
        BytesWithout(out, i, ip);
      } else {
        assert last in keep;
        var i :| 0 <= i < |keep| && keep[i] == last;
        OutSplits(init, last, out, keep, i);
        BytesSplit(init, Without(keep, i), out, ip);
        BytesWithout(keep, i, ip);
      }
    }
  }

  /** The reservations a ledger counts. */
  datatype Bucket = Everything | FromIp(ip: Ip) | OnChannel(ref: nat)

  function Share(r: Reservation<nat>, b: Bucket): nat {
    if b == Everything || b == FromIp(r.sourceIp) || b == OnChannel(r.channel) then r.size else 0
  }

  ghost function Reserved(d: map<SocketId, Reservation<nat>>, b: Bucket): nat {
    if d == map[] then 0
    else
      var s :| s in d;
      Share(d[s], b) + Reserved(d - {s}, b)
  }

  /** Any entry may be counted first. */
  lemma {:induction false} ReservedWithout(d: map<SocketId, Reservation<nat>>, s: SocketId, b: Bucket)
    requires s in d
    ensures Reserved(d, b) == Share(d[s], b) + Reserved(d - {s}, b)
    decreases |d|
  {
    var t :| t in d && Reserved(d, b) == Share(d[t], b) + Reserved(d - {t}, b);
    if t != s {
      ReservedWithout(d - {t}, s, b);
      ReservedWithout(d - {s}, t, b);
      assert d - {t} - {s} == d - {s} - {t};
    }
  }

  lemma {:induction false} ReservedWith(d: map<SocketId, Reservation<nat>>, s: SocketId, r: Reservation<nat>, b: Bucket)
    requires s !in d
    ensures Reserved(d[s := r], b) == Share(r, b) + Reserved(d, b)
  {
    ReservedWithout(d[s := r], s, b);
    assert d[s := r] - {s} == d;
  }

  lemma {:induction false} ReservedNowhere(d: map<SocketId, Reservation<nat>>, b: Bucket)
    requires forall s :: s in d ==> Share(d[s], b) == 0
    ensures Reserved(d, b) == 0
    decreases |d|
  {
    if d != map[] {
      var s :| s in d;
      ReservedWithout(d, s, b);
      ReservedNowhere(d - {s}, b);
    }
  }

  // ---------- The clamps never act on a consistent ledger ----------

  ghost predicate PositiveIps(byIp: map<Ip, int>) {
    forall ip :: ip in byIp ==> byIp[ip] > 0
  }

  /** While the ledger covers `ms`, releasing them subtracts exactly their bytes everywhere. */
  lemma {:induction false} ReleaseEachExact(l: Ledger, ms: seq<Message>)
    requires PositiveIps(l.byIp)
    requires Bytes(ms, None) <= l.buffered
    requires forall ip :: Bytes(ms, Some(ip)) <= AtIp(l.byIp, ip)
    ensures var after := ReleaseEach(l, ms);
            && after.buffered == l.buffered - Bytes(ms, None)
            && after.inflight == l.inflight
            && PositiveIps(after.byIp)
            && forall ip :: AtIp(after.byIp, ip) == AtIp(l.byIp, ip) - Bytes(ms, Some(ip))
  {
    if ms != [] {
      var init, last := ms[..|ms| - 1], ms[|ms| - 1];
      forall ip ensures Bytes(init, Some(ip)) <= AtIp(l.byIp, ip) {
        assert Bytes(init, Some(ip)) <= Bytes(ms, Some(ip));
      }
      ReleaseEachExact(l, init);
    }
  }

  lemma {:induction false} ClampEachExact(bytes: int, ms: seq<Message>)
    requires Bytes(ms, None) <= bytes
    ensures ClampEach(bytes, ms) == bytes - Bytes(ms, None)
  {
    if ms != [] {
      ClampEachExact(bytes, ms[..|ms| - 1]);
    }
  }
}
