/**
 The relay's fixed-window rate limiter: one entry per address, shared by all its
 buckets, opened by the first request after the previous window ran out. Over
 every trace of requests and sweeps no span as long as a window sees more than
 twice the limit, that bound is reached, and sweeping changes no decision.
 */
module RateLimits {
  import opened RelayTypes

  const RATE_LIMIT_WINDOW_MS := 60 * 1000

  datatype Bucket = Connect | Handshake | Message | JoinChannel | Control

  function LimitOf(bucket: Bucket): nat {
    match bucket
    case Connect => 60
    case Handshake => 60
    case Message => 100
    case JoinChannel => 30
    case Control => 300
  }

  datatype Entry = Entry(counts: map<Bucket, nat>, resetAt: nat) {
    function Count(bucket: Bucket): nat {
      if bucket in counts then counts[bucket] else 0
    }

    function Bump(bucket: Bucket): Entry {
      this.(counts := counts[bucket := Count(bucket) + 1])
    }
  }

  predicate Expired(table: map<Ip, Entry>, ip: Ip, now: nat) {
    ip !in table || now > table[ip].resetAt
  }

  function Check(table: map<Ip, Entry>, ip: Ip, bucket: Bucket, now: nat): (map<Ip, Entry>, bool) {
    var entry := if Expired(table, ip, now) then Entry(map[], now + RATE_LIMIT_WINDOW_MS) else table[ip];
    (table[ip := entry.Bump(bucket)], entry.Bump(bucket).Count(bucket) <= LimitOf(bucket))
  }

  function Sweep(table: map<Ip, Entry>, now: nat): map<Ip, Entry> {
    map ip | ip in table && now <= table[ip].resetAt :: table[ip]
  }

  class RateLimiter {
    var rateLimits: map<Ip, Entry>

    constructor ()
      ensures rateLimits == map[]
    {
      rateLimits := map[];
    }

    method CheckRateLimit(ip: Ip, bucket: Bucket, now: nat) returns (allowed: bool)
      modifies this
      ensures (rateLimits, allowed) == Check(old(rateLimits), ip, bucket, now)
    {
      ghost var before := rateLimits;
      if ip !in rateLimits || now > rateLimits[ip].resetAt {
        rateLimits := rateLimits[ip := Entry(map[], now + RATE_LIMIT_WINDOW_MS)];
      }
      var entry := rateLimits[ip];
      var count := entry.Count(bucket) + 1;
      rateLimits := rateLimits[ip := Entry(entry.counts[bucket := count], entry.resetAt)];
      assert rateLimits == before[ip := rateLimits[ip]];
      allowed := count <= LimitOf(bucket);
    }

    method SweepExpired(now: nat)
      modifies this
      ensures rateLimits == Sweep(old(rateLimits), now)
    {
      var rest := rateLimits.Keys;
      while rest != {}
        invariant rest <= old(rateLimits).Keys
        invariant forall ip :: ip in rateLimits <==>
                    ip in old(rateLimits) && (ip in rest || now <= old(rateLimits)[ip].resetAt)
        invariant forall ip :: ip in rateLimits ==> rateLimits[ip] == old(rateLimits)[ip]
      {
        var ip :| ip in rest;
        if now > rateLimits[ip].resetAt {
          rateLimits := rateLimits - {ip};
        }
        rest := rest - {ip};
      }
    }
  }

  // ---------- Traces ----------

  datatype Event = Ask(ip: Ip, bucket: Bucket, at: nat) | Swept(at: nat)

  datatype Request = Request(ip: Ip, bucket: Bucket, at: nat, allowed: bool)

  /** The table, with the history of when each address last opened a window and of every decision. */
  datatype State = State(table: map<Ip, Entry>, starts: map<Ip, nat>, log: seq<Request>)

  function Step(st: State, e: Event): State {
    match e
    case Swept(at) => st.(table := Sweep(st.table, at))
    case Ask(ip, bucket, at) =>
      var (table, allowed) := Check(st.table, ip, bucket, at);
      State(table,
            if Expired(st.table, ip, at) then st.starts[ip := at] else st.starts,
            st.log + [Request(ip, bucket, at, allowed)])
  }

  function Run(trace: seq<Event>): State {
    if trace == [] then State(map[], map[], [])
    else Step(Run(trace[..|trace| - 1]), trace[|trace| - 1])
  }

  lemma RunSnoc(trace: seq<Event>, e: Event)
    ensures Run(trace + [e]) == Step(Run(trace), e)
  {
    hide Step;
    assert (trace + [e])[..|trace|] == trace;
  }

  ghost predicate Monotone(trace: seq<Event>) {
    forall i, j :: 0 <= i < j < |trace| ==> trace[i].at <= trace[j].at
  }

  /** Requests of one address and bucket in a time span, only the allowed ones unless `all`. */
  function Tally(log: seq<Request>, ip: Ip, bucket: Bucket, lo: int, hi: int, all: bool): (n: nat) {
    if log == [] then 0
    else
      var r := log[|log| - 1];
      Tally(log[..|log| - 1], ip, bucket, lo, hi, all) +
      if r.ip == ip && r.bucket == bucket && lo <= r.at <= hi && (all || r.allowed) then 1 else 0
  }

  lemma {:induction false} TallyNarrows(log: seq<Request>, ip: Ip, bucket: Bucket, lo: int, lo': int, hi: int,
                                        all: bool)
    requires lo <= lo'
    ensures Tally(log, ip, bucket, lo', hi, all) <= Tally(log, ip, bucket, lo, hi, all)
  {
    if log != [] {
      TallyNarrows(log[..|log| - 1], ip, bucket, lo, lo', hi, all);
    }
  }

  lemma {:induction false} TallyUpTo(log: seq<Request>, ip: Ip, bucket: Bucket, lo: int, hi: int, hi': int, all: bool)
    requires forall r :: r in log ==> r.at <= hi && r.at <= hi'
    ensures Tally(log, ip, bucket, lo, hi, all) == Tally(log, ip, bucket, lo, hi', all)
  {
    if log != [] {
      TallyUpTo(log[..|log| - 1], ip, bucket, lo, hi, hi', all);
    }
  }

  lemma {:induction false} TallyNothing(log: seq<Request>, ip: Ip, bucket: Bucket, lo: int, hi: int, all: bool)
    requires forall r :: r in log && r.ip == ip ==> r.at < lo
    ensures Tally(log, ip, bucket, lo, hi, all) == 0
  {
    if log != [] {
      TallyNothing(log[..|log| - 1], ip, bucket, lo, hi, all);
    }
  }

  // ---------- The window invariant ----------

  /** The table agrees with the history, and entries are only missing once their window ran out. */
  ghost predicate Current(st: State, now: nat) {
    && (forall ip :: ip in st.table ==> ip in st.starts && st.table[ip].resetAt == st.starts[ip] + RATE_LIMIT_WINDOW_MS)
    && (forall ip :: ip in st.starts && ip !in st.table ==> now > st.starts[ip] + RATE_LIMIT_WINDOW_MS)
    && (forall ip :: ip in st.starts ==> st.starts[ip] <= now)
    && (forall r :: r in st.log ==> r.at <= now && r.ip in st.starts && r.at <= st.starts[r.ip] + RATE_LIMIT_WINDOW_MS)
  }

  /** The entry counts the requests of its window; its window and the span of one window before it hold at most
      a limit each. */
  ghost predicate Bounded(st: State, ip: Ip, bucket: Bucket, now: nat)
    requires ip in st.starts
  {
    var start, limit := st.starts[ip], LimitOf(bucket);
    var within := Tally(st.log, ip, bucket, start, now, false);
    && (ip in st.table ==> st.table[ip].Count(bucket) == Tally(st.log, ip, bucket, start, now, true))
    && (ip in st.table ==> within <= st.table[ip].Count(bucket))
    && within <= limit
    && Tally(st.log, ip, bucket, start - RATE_LIMIT_WINDOW_MS, now, false) <= within + limit
  }

  ghost predicate Inv(st: State, now: nat) {
    Current(st, now) && forall ip, bucket :: ip in st.starts ==> Bounded(st, ip, bucket, now)
  }

  lemma InvLater(st: State, now: nat, later: nat)
    requires Inv(st, now) && now <= later
    ensures Inv(st, later)
  {
    forall ip, bucket | ip in st.starts ensures Bounded(st, ip, bucket, later) {
      assert Bounded(st, ip, bucket, now);
      TallyUpTo(st.log, ip, bucket, st.starts[ip], now, later, true);
      TallyUpTo(st.log, ip, bucket, st.starts[ip], now, later, false);
      TallyUpTo(st.log, ip, bucket, st.starts[ip] - RATE_LIMIT_WINDOW_MS, now, later, false);
    }
  }

  lemma SweepKeepsInv(st: State, now: nat)
    requires Inv(st, now)
    ensures Inv(Step(st, Swept(now)), now)
  {
    var after := Step(st, Swept(now));
    forall ip, bucket | ip in after.starts ensures Bounded(after, ip, bucket, now) {
      assert Bounded(st, ip, bucket, now);
    }
  }

  lemma AskKeepsCurrent(st: State, ip: Ip, bucket: Bucket, now: nat)
    requires Current(st, now)
    ensures Current(Step(st, Ask(ip, bucket, now)), now)
  {
  }

  /** A new request counts once in every span up to now that it falls into. */
  lemma LogGrows(st: State, ip: Ip, bucket: Bucket, now: nat, ip': Ip, bucket': Bucket)
    ensures var after := Step(st, Ask(ip, bucket, now));
            var same := ip' == ip && bucket' == bucket;
            forall lo: int, all: bool ::
              Tally(after.log, ip', bucket', lo, now, all)
              == Tally(st.log, ip', bucket', lo, now, all)
                 + if same && lo <= now && (all || Check(st.table, ip, bucket, now).1) then 1 else 0
  {
    var after := Step(st, Ask(ip, bucket, now));
    assert after.log[..|after.log| - 1] == st.log;
  }

  lemma NothingInWindow(st: State, ip: Ip, now: nat)
    requires Current(st, now) && Expired(st.table, ip, now)
    ensures forall r :: r in st.log && r.ip == ip ==> ip in st.starts && r.at < now
    ensures ip in st.starts ==> st.starts[ip] + RATE_LIMIT_WINDOW_MS < now
  {
  }

  /** A request that opens a window finds no earlier request in it, and at most a limit in the span before it. */
  lemma OpeningKeepsBounded(st: State, ip: Ip, bucket: Bucket, now: nat, bucket': Bucket)
    requires Current(st, now) && Expired(st.table, ip, now)
    requires ip in st.starts ==> Bounded(st, ip, bucket', now)
    ensures Bounded(Step(st, Ask(ip, bucket, now)), ip, bucket', now)
  {
    hide Current, Tally;
    NothingInWindow(st, ip, now);
    LogGrows(st, ip, bucket, now, ip, bucket');
    TallyNothing(st.log, ip, bucket', now, now, true);
    TallyNothing(st.log, ip, bucket', now, now, false);
    if ip in st.starts {
      TallyNarrows(st.log, ip, bucket', st.starts[ip], now - RATE_LIMIT_WINDOW_MS, now, false);
    } else {
      TallyNothing(st.log, ip, bucket', now - RATE_LIMIT_WINDOW_MS, now, false);
    }
  }

  lemma AskKeepsBounded(st: State, ip: Ip, bucket: Bucket, now: nat, ip': Ip, bucket': Bucket)
    requires Current(st, now) && ip' in Step(st, Ask(ip, bucket, now)).starts
    requires ip' in st.starts ==> Bounded(st, ip', bucket', now)
    ensures Bounded(Step(st, Ask(ip, bucket, now)), ip', bucket', now)
  {
    hide Tally;
    if ip' == ip && Expired(st.table, ip, now) {
      OpeningKeepsBounded(st, ip, bucket, now, bucket');
    } else {
      LogGrows(st, ip, bucket, now, ip', bucket');
      assert ip == ip' ==> st.starts[ip] <= now;
      hide Current;
    }
  }

  lemma {:induction false} RunKeepsInv(trace: seq<Event>, now: nat)
    requires Monotone(trace) && forall i :: 0 <= i < |trace| ==> trace[i].at <= now
    ensures Inv(Run(trace), now)
  {
    if trace != [] {
      var init, last := trace[..|trace| - 1], trace[|trace| - 1];
      var st := Run(init);
      RunKeepsInv(init, last.at);
      match last {
        case Swept(at) => SweepKeepsInv(st, at);
        case Ask(ip, bucket, at) =>
          AskKeepsCurrent(st, ip, bucket, at);
          forall ip', bucket' | ip' in Step(st, last).starts ensures Bounded(Step(st, last), ip', bucket', at) {
            AskKeepsBounded(st, ip, bucket, at, ip', bucket');
          }
      }
      assert Inv(Step(st, last), last.at);
      InvLater(Step(st, last), last.at, now);
    }
  }

  /** At any moment the span of one window behind it holds at most twice the limit. */
  lemma TwiceTheLimitSoFar(st: State, now: nat, ip: Ip, bucket: Bucket, lo: int)
    requires Inv(st, now) && now - RATE_LIMIT_WINDOW_MS <= lo
    ensures Tally(st.log, ip, bucket, lo, now, false) <= 2 * LimitOf(bucket)
  {
    if ip in st.starts {
      assert Bounded(st, ip, bucket, now);
      TallyNarrows(st.log, ip, bucket, st.starts[ip] - RATE_LIMIT_WINDOW_MS, lo, now, false);
    } else {
      TallyNothing(st.log, ip, bucket, lo, now, false);
    }
  }

  /** In any span as long as one window at most twice the limit is allowed. */
  lemma {:induction false} AtMostTwiceTheLimit(trace: seq<Event>, ip: Ip, bucket: Bucket, lo: int)
    requires Monotone(trace)
    ensures Tally(Run(trace).log, ip, bucket, lo, lo + RATE_LIMIT_WINDOW_MS, false) <= 2 * LimitOf(bucket)
  {
    if trace != [] {
      var init, last := trace[..|trace| - 1], trace[|trace| - 1];
      var after, hi := Run(trace), lo + RATE_LIMIT_WINDOW_MS;
      if last.at > hi || last.Swept? {
        AtMostTwiceTheLimit(init, ip, bucket, lo);
        assert last.Ask? ==> after.log[..|after.log| - 1] == Run(init).log;
      } else {
        RunKeepsInv(trace, last.at);
        TwiceTheLimitSoFar(after, last.at, ip, bucket, lo);
        TallyUpTo(after.log, ip, bucket, lo, last.at, hi, false);
      }
    }
  }

  // ---------- Sweeping changes no decision ----------

  /** A request is refused exactly when its address already made the bucket's limit of requests in a window
      still open. */
  lemma DecisionFromHistory(trace: seq<Event>, ip: Ip, bucket: Bucket, at: nat)
    requires Monotone(trace + [Ask(ip, bucket, at)])
    ensures var st := Run(trace);
            var open := ip in st.starts && at <= st.starts[ip] + RATE_LIMIT_WINDOW_MS;
            && Expired(st.table, ip, at) == !open
            && Check(st.table, ip, bucket, at).1 ==
               (!open || Tally(st.log, ip, bucket, st.starts[ip], at, true) < LimitOf(bucket))
  {
    var full := trace + [Ask(ip, bucket, at)];
    assert full[|trace|].at == at;
    forall i | 0 <= i < |trace| ensures trace[i].at <= at {
      assert full[i] == trace[i];
    }
    assert Monotone(trace) by {
      forall i, j | 0 <= i < j < |trace| ensures trace[i].at <= trace[j].at {
        assert full[i] == trace[i] && full[j] == trace[j];
      }
    }
    RunKeepsInv(trace, at);
    if ip in Run(trace).starts {
      assert Bounded(Run(trace), ip, bucket, at);
    }
  }

  function Requests(trace: seq<Event>): (asks: seq<Event>)
    ensures forall e :: e in asks ==> e in trace
  {
    if trace == [] then []
    else
      var last := trace[|trace| - 1];
      Requests(trace[..|trace| - 1]) + if last.Ask? then [last] else []
  }

  lemma {:induction false} RequestsMonotone(trace: seq<Event>)
    requires Monotone(trace)
    ensures Monotone(Requests(trace))
  {
    if trace != [] {
      var init, last := trace[..|trace| - 1], trace[|trace| - 1];
      RequestsMonotone(init);
      assert forall e :: e in init ==> e.at <= last.at;
      assert forall e :: e in Requests(init) ==> e.at <= last.at;
    }
  }

  /** Sweeping at whatever times leaves every decision, and every window, as it would be without sweeps. */
  lemma {:induction false} SweepsChangeNothing(trace: seq<Event>)
    requires Monotone(trace)
    ensures Run(trace).log == Run(Requests(trace)).log
    ensures Run(trace).starts == Run(Requests(trace)).starts
  {
    if trace != [] {
      var init, last := trace[..|trace| - 1], trace[|trace| - 1];
      SweepsChangeNothing(init);
      if last.Ask? {
        var asks := Requests(init);
        assert trace == init + [last] && Requests(trace) == asks + [last];
        RequestsMonotone(trace);
        DecisionFromHistory(init, last.ip, last.bucket, last.at);
        DecisionFromHistory(asks, last.ip, last.bucket, last.at);
        hide Run, Requests, Tally;
        RunSnoc(init, last);
        RunSnoc(asks, last);
      } else {
        assert Requests(trace) == Requests(init);
      }
    }
  }

  // ---------- The bound is reached ----------

  function Burst(ip: Ip, bucket: Bucket, at: nat, k: nat): (burst: seq<Event>)
    ensures |burst| == k && forall i :: 0 <= i < k ==> burst[i] == Ask(ip, bucket, at)
  {
    if k == 0 then [] else Burst(ip, bucket, at, k - 1) + [Ask(ip, bucket, at)]
  }

  ghost predicate Untouched(st: State, ip: Ip, bucket: Bucket, at: nat) {
    Expired(st.table, ip, at) || st.table[ip].Count(bucket) == 0
  }

  ghost predicate Standing(st: State, ip: Ip, bucket: Bucket, at: nat, k: nat) {
    !Expired(st.table, ip, at) && st.table[ip].Count(bucket) == k
  }

  lemma AskAllowed(st: State, ip: Ip, bucket: Bucket, at: nat, k: nat, lo: int, hi: int)
    requires (k == 0 && Untouched(st, ip, bucket, at)) || Standing(st, ip, bucket, at, k)
    requires k < LimitOf(bucket) && lo <= at <= hi
    ensures var after := Step(st, Ask(ip, bucket, at));
            && Standing(after, ip, bucket, at, k + 1)
            && Tally(after.log, ip, bucket, lo, hi, false) == Tally(st.log, ip, bucket, lo, hi, false) + 1
            && (!Expired(st.table, ip, at) ==> after.table[ip].resetAt == st.table[ip].resetAt)
  {
    var after := Step(st, Ask(ip, bucket, at));
    assert after.log[..|after.log| - 1] == st.log;
  }

  /** A burst of up to a limit of requests against an untouched bucket is allowed whole. */
  lemma {:induction false} BurstAllowed(trace: seq<Event>, ip: Ip, bucket: Bucket, at: nat, k: nat, lo: int, hi: int)
    requires Untouched(Run(trace), ip, bucket, at) && k <= LimitOf(bucket) && lo <= at <= hi
    ensures var before, after := Run(trace), Run(trace + Burst(ip, bucket, at, k));
            && Tally(after.log, ip, bucket, lo, hi, false) == Tally(before.log, ip, bucket, lo, hi, false) + k
            && (if k == 0 then after == before else Standing(after, ip, bucket, at, k))
            && (!Expired(before.table, ip, at) ==>
                  !Expired(after.table, ip, at) && after.table[ip].resetAt == before.table[ip].resetAt)
    decreases k
  {
    hide Run, Tally, Step;
    if k == 0 {
      assert trace + [] == trace;
    } else {
      var init := trace + Burst(ip, bucket, at, k - 1);
      assert trace + Burst(ip, bucket, at, k) == init + [Ask(ip, bucket, at)];
      BurstAllowed(trace, ip, bucket, at, k - 1, lo, hi);
      RunSnoc(init, Ask(ip, bucket, at));
      AskAllowed(Run(init), ip, bucket, at, k - 1, lo, hi);
    }
  }

  lemma Opening(ip: Ip, bucket: Bucket, other: Bucket, w: nat)
    requires other != bucket && 0 < w <= RATE_LIMIT_WINDOW_MS
    ensures var st := Run([Ask(ip, other, 0)]);
            && Standing(st, ip, bucket, w, 0) && st.table[ip].resetAt == RATE_LIMIT_WINDOW_MS
            && Tally(st.log, ip, bucket, w, w + 1, false) == 0
  {
    RunSnoc([], Ask(ip, other, 0));
    assert [] + [Ask(ip, other, 0)] == [Ask(ip, other, 0)];
  }

  /** A window opened by another bucket, a full burst at its last moment and one just after: twice the limit in
      two moments. */
  lemma TwiceTheLimitIsReached(ip: Ip, bucket: Bucket) returns (trace: seq<Event>)
    ensures Monotone(trace)
    ensures var w := RATE_LIMIT_WINDOW_MS;
            Tally(Run(trace).log, ip, bucket, w, w + 1, false) == 2 * LimitOf(bucket)
  {
    hide Run, Tally, Burst;
    var w, limit := RATE_LIMIT_WINDOW_MS, LimitOf(bucket);
    var other := if bucket == Connect then Control else Connect;
    var opening := [Ask(ip, other, 0)];
    Opening(ip, bucket, other, w);
    var first := Burst(ip, bucket, w, limit);
    var second := Burst(ip, bucket, w + 1, limit);
    BurstAllowed(opening, ip, bucket, w, limit, w, w + 1);
    BurstAllowed(opening + first, ip, bucket, w + 1, limit, w, w + 1);
    trace := opening + first + second;
    assert forall i :: 0 <= i < |trace| ==> trace[i].at == if i == 0 then 0 else if i <= limit then w else w + 1;
  }
}
