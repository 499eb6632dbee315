/**
 When an IPFS gateway is given a rest. The gateway keeps one timestamp per CID
 that failed recently and prunes the map lazily, at the next failure; the
 reference looks at the whole history of failures since the last trip.
 */
module GatewayCooldown {
  import opened Options

  datatype Settings = Settings(windowMs: Pos, minCids: Pos, maxCooldownMs: Pos)

  /** What loading the configuration guarantees. */
  predicate Configured(cfg: Settings) {
    cfg.maxCooldownMs >= 900000 && cfg.minCids >= 3
  }

  const DEFAULT_COOLDOWN_MS := 60000
  const SERVER_ERROR_COOLDOWN_MS := 30000

  // ---------- CIDs ----------

  function LowerChar(c: char): char {
    if 'A' <= c <= 'Z' then (c as int + 32) as char else c
  }

  function Lower(s: string): (l: string)
    ensures |l| == |s| && forall i :: 0 <= i < |s| ==> l[i] == LowerChar(s[i])
  {
    seq(|s|, i requires 0 <= i < |s| => LowerChar(s[i]))
  }

  /** One key per root: base32 CIDs are compared without letter case, base58 ones as they are. */
  function RootKey(cid: string): string {
    if cid != [] && cid[0] == 'b' then Lower(cid) else cid
  }

  /** Two CIDs share a key exactly when they are equal, or both base32 and equal up to letter case. */
  lemma RootKeyIdentifies(a: string, b: string)
    ensures RootKey(a) == RootKey(b) <==>
            (a == b || (a != [] && b != [] && a[0] == 'b' && b[0] == 'b' && Lower(a) == Lower(b)))
  {
    if a != [] && b != [] && RootKey(a) == RootKey(b) {
      assert RootKey(a)[0] == RootKey(b)[0];
    }
  }

  predicate Qualifies(status: nat) {
    status == 502 || status == 503 || status == 504
  }

  // ---------- Retry-After ----------

  /** A Retry-After value: delay in seconds, an HTTP date as milliseconds since the epoch, or neither. */
  datatype RetryAfter = Missing | Seconds(n: nat) | Date(at: int)

  /** Section 10.2.3 of RFC 9110, capped. */
  function RetryAfterMs(cfg: Settings, value: RetryAfter, now: nat): nat {
    match value
    case Missing => DEFAULT_COOLDOWN_MS
    case Seconds(n) => Min(n * 1000, cfg.maxCooldownMs)
    case Date(at) => Min(Max(0, at - now), cfg.maxCooldownMs)
  }

  // ---------- The gateway ----------

  datatype Gateway = Gateway(cooldownUntil: nat, serverErrorCids: map<string, nat>)

  /** What an attempt at a gateway tells about it. */
  datatype Answer = Answer(cid: string, status: nat, retryAfter: RetryAfter)

  predicate ServerError(status: nat) {
    500 <= status < 600
  }

  function Prune(cfg: Settings, cids: map<string, nat>, now: nat): map<string, nat> {
    map k | k in cids && now - cids[k] < cfg.windowMs :: cids[k]
  }

  /** Record a failure; the flag says whether the gateway must cool down. */
  function Observe(cfg: Settings, cids: map<string, nat>, cid: string, status: nat, now: nat)
    : (map<string, nat>, bool)
  {
    if !Qualifies(status) then (cids, false)
    else
      var noted := Prune(cfg, cids, now)[RootKey(cid) := now];
      if |noted| < cfg.minCids then (noted, false) else (map[], true)
  }

  function React(cfg: Settings, g: Gateway, a: Answer, now: nat): Gateway {
    if a.status == 429 then
      g.(cooldownUntil := Max(g.cooldownUntil, now + RetryAfterMs(cfg, a.retryAfter, now)))
    else if ServerError(a.status) then
      var (cids, trips) := Observe(cfg, g.serverErrorCids, a.cid, a.status, now);
      Gateway(if trips then Max(g.cooldownUntil, now + SERVER_ERROR_COOLDOWN_MS) else g.cooldownUntil, cids)
    else g
  }

  class GatewayState {
    var cooldownUntil: nat
    var serverErrorCids: map<string, nat>

    function View(): Gateway
      reads this
    {
      Gateway(cooldownUntil, serverErrorCids)
    }

    constructor ()
      ensures View() == Gateway(0, map[])
    {
      cooldownUntil := 0;
      serverErrorCids := map[];
    }

    method ShouldCoolDownForServerError(cfg: Settings, cid: string, status: nat, now: nat) returns (trips: bool)
      modifies `serverErrorCids
      ensures (serverErrorCids, trips) == Observe(cfg, old(serverErrorCids), cid, status, now)
    {
      if !Qualifies(status) {
        return false;
      }
      var rest := serverErrorCids.Keys;
      while rest != {}
        invariant rest <= old(serverErrorCids).Keys
        invariant forall k :: k in serverErrorCids <==>
                    k in old(serverErrorCids) && (k in rest || now - old(serverErrorCids)[k] < cfg.windowMs)
        invariant forall k :: k in serverErrorCids ==> serverErrorCids[k] == old(serverErrorCids)[k]
      {
        var k :| k in rest;
        if now - serverErrorCids[k] >= cfg.windowMs {
          serverErrorCids := serverErrorCids - {k};
        }
        rest := rest - {k};
      }
      assert serverErrorCids == Prune(cfg, old(serverErrorCids), now);
      serverErrorCids := serverErrorCids[RootKey(cid) := now];
      if |serverErrorCids| < cfg.minCids {
        return false;
      }
      serverErrorCids := map[];
      trips := true;
    }

    method NoteAnswer(cfg: Settings, a: Answer, now: nat)
      modifies this
      ensures View() == React(cfg, old(View()), a, now)
    {
      var serverError := 500 <= a.status < 600;
      if a.status == 429 || serverError {
        var cools := a.status == 429;
        if !cools {
          cools := ShouldCoolDownForServerError(cfg, a.cid, a.status, now);
        }
        if cools {
          var cooldownMs := if serverError then SERVER_ERROR_COOLDOWN_MS else RetryAfterMs(cfg, a.retryAfter, now);
          cooldownUntil := Max(cooldownUntil, now + cooldownMs);
        }
      }
    }
  }

  // ---------- The whole-history reference ----------

  datatype Failure = Failure(cid: string, at: nat)

  /** When the key last failed in this history. */
  function LastAt(history: seq<Failure>, key: string): Option<nat> {
    if history == [] then None
    else
      var last := history[|history| - 1];
      if RootKey(last.cid) == key then Some(last.at) else LastAt(history[..|history| - 1], key)
  }

  function Keys(history: seq<Failure>): (keys: set<string>)
    ensures forall k :: k in keys <==> LastAt(history, k).Some?
  {
    if history == [] then {} else Keys(history[..|history| - 1]) + {RootKey(history[|history| - 1].cid)}
  }

  /** The distinct roots whose latest failure is younger than the window. */
  function RecentRoots(cfg: Settings, history: seq<Failure>, now: nat): set<string> {
    set k | k in Keys(history) && now - LastAt(history, k).value < cfg.windowMs
  }

  /** The reference: trip when enough distinct roots failed recently, and then forget the history. */
  function Reference(cfg: Settings, history: seq<Failure>, f: Failure): (seq<Failure>, bool) {
    var longer := history + [f];
    if |RecentRoots(cfg, longer, f.at)| >= cfg.minCids then ([], true) else (longer, false)
  }

  ghost predicate OlderThan(history: seq<Failure>, now: nat) {
    forall k :: LastAt(history, k).Some? ==> LastAt(history, k).value <= now
  }

  /** The map holds a root's last failure, unless that has left the window. */
  ghost predicate Mirrors(cfg: Settings, cids: map<string, nat>, history: seq<Failure>, now: nat) {
    && (forall k :: k in cids ==> LastAt(history, k) == Some(cids[k]))
    && (forall k :: k in Keys(history) && k !in cids ==> now - LastAt(history, k).value >= cfg.windowMs)
    && OlderThan(history, now)
  }

  ghost predicate Tracks(cfg: Settings, cids: map<string, nat>, history: seq<Failure>, now: nat) {
    Mirrors(cfg, cids, history, now) && |cids| < cfg.minCids
  }

  lemma LastAtSnoc(history: seq<Failure>, f: Failure, key: string)
    ensures LastAt(history + [f], key) == if RootKey(f.cid) == key then Some(f.at) else LastAt(history, key)
  {
    assert (history + [f])[..|history|] == history;
  }

  /** Noting a failure in the pruned map leaves exactly the recent roots, and keeps mirroring the history. */
  lemma RecentAreNoted(cfg: Settings, cids: map<string, nat>, history: seq<Failure>, before: nat, f: Failure)
    requires Mirrors(cfg, cids, history, before) && before <= f.at
    ensures var noted := Prune(cfg, cids, f.at)[RootKey(f.cid) := f.at];
            && noted.Keys == RecentRoots(cfg, history + [f], f.at)
            && Mirrors(cfg, noted, history + [f], f.at)
  {
    forall k ensures LastAt(history + [f], k) == if RootKey(f.cid) == k then Some(f.at) else LastAt(history, k) {
      LastAtSnoc(history, f, k);
    }
    hide LastAt, RootKey;
  }

  lemma NothingTracked(cfg: Settings, now: nat)
    ensures Tracks(cfg, map[], [], now)
  {
  }

  /** One failure: the pruned map trips exactly when the reference does, and keeps tracking it. */
  lemma ObserveRefines(cfg: Settings, cids: map<string, nat>, history: seq<Failure>, before: nat, f: Failure,
                       status: nat)
    requires Tracks(cfg, cids, history, before) && before <= f.at && Qualifies(status)
    ensures var (noted, trips) := Observe(cfg, cids, f.cid, status, f.at);
            var (longer, expected) := Reference(cfg, history, f);
            trips == expected && Tracks(cfg, noted, longer, f.at)
  {
    hide Mirrors, RecentRoots, Prune, RootKey;
    RecentAreNoted(cfg, cids, history, before, f);
    NothingTracked(cfg, f.at);
    var noted := Prune(cfg, cids, f.at)[RootKey(f.cid) := f.at];
    assert |noted| == |noted.Keys|;
  }

  // ---------- Over every run ----------

  /** The gateway was told an answer at a time; the answers of all concurrent requests interleave here. */
  datatype Told = Told(answer: Answer, at: nat)

  ghost predicate Monotone(run: seq<Told>) {
    forall i, j :: 0 <= i < j < |run| ==> run[i].at <= run[j].at
  }

  function Run(cfg: Settings, run: seq<Told>): Gateway {
    if run == [] then Gateway(0, map[])
    else React(cfg, Run(cfg, run[..|run| - 1]), run[|run| - 1].answer, run[|run| - 1].at)
  }

  /** The qualifying failures since the last trip, by the reference alone. */
  function SinceTrip(cfg: Settings, run: seq<Told>): seq<Failure> {
    if run == [] then []
    else
      var history, last := SinceTrip(cfg, run[..|run| - 1]), run[|run| - 1];
      if Qualifies(last.answer.status) then Reference(cfg, history, Failure(last.answer.cid, last.at)).0 else history
  }

  lemma TracksLater(cfg: Settings, cids: map<string, nat>, history: seq<Failure>, now: nat, later: nat)
    requires Tracks(cfg, cids, history, now) && now <= later
    ensures Tracks(cfg, cids, history, later)
  {
  }

  /** In every run the map stays below the threshold and holds exactly the reference's recent failures. */
  lemma {:induction false} RunTracks(cfg: Settings, run: seq<Told>, now: nat)
    requires Monotone(run) && forall i :: 0 <= i < |run| ==> run[i].at <= now
    ensures Tracks(cfg, Run(cfg, run).serverErrorCids, SinceTrip(cfg, run), now)
  {
    if run != [] {
      var init, last := run[..|run| - 1], run[|run| - 1];
      var g, history := Run(cfg, init), SinceTrip(cfg, init);
      RunTracks(cfg, init, last.at);
      if Qualifies(last.answer.status) {
        ObserveRefines(cfg, g.serverErrorCids, history, last.at, Failure(last.answer.cid, last.at), last.answer.status);
      }
      hide Tracks, Reference, Observe;
      assert Tracks(cfg, Run(cfg, run).serverErrorCids, SinceTrip(cfg, run), last.at);
      TracksLater(cfg, Run(cfg, run).serverErrorCids, SinceTrip(cfg, run), last.at, now);
    }
  }

  /** In every run the next failure trips the gateway exactly when enough distinct roots failed within the window. */
  lemma RunTripsLikeReference(cfg: Settings, run: seq<Told>, f: Failure, status: nat)
    requires Monotone(run) && forall i :: 0 <= i < |run| ==> run[i].at <= f.at
    requires Qualifies(status)
    ensures Observe(cfg, Run(cfg, run).serverErrorCids, f.cid, status, f.at).1 <==>
              |RecentRoots(cfg, SinceTrip(cfg, run) + [f], f.at)| >= cfg.minCids
  {
    RunTracks(cfg, run, f.at);
    ObserveRefines(cfg, Run(cfg, run).serverErrorCids, SinceTrip(cfg, run), f.at, f, status);
  }

  /** A cooldown is never shortened, and never reaches past the cap from now unless it already did. */
  lemma CooldownMoves(cfg: Settings, g: Gateway, a: Answer, now: nat)
    requires Configured(cfg)
    ensures var after := React(cfg, g, a, now);
            && g.cooldownUntil <= after.cooldownUntil <= now + Max(g.cooldownUntil - now, cfg.maxCooldownMs)
            && (a.status == 429 && a.retryAfter.Seconds? && a.retryAfter.n * 1000 <= cfg.maxCooldownMs ==>
                  now + a.retryAfter.n * 1000 <= after.cooldownUntil)
  {
  }

  /** Once answers stop, every gateway is eligible again within the cap. */
  lemma {:induction false} CooldownEnds(cfg: Settings, run: seq<Told>, now: nat)
    requires Configured(cfg) && forall i :: 0 <= i < |run| ==> run[i].at <= now
    ensures Run(cfg, run).cooldownUntil <= now + cfg.maxCooldownMs
  {
    if run != [] {
      CooldownEnds(cfg, run[..|run| - 1], now);
      CooldownMoves(cfg, Run(cfg, run[..|run| - 1]), run[|run| - 1].answer, run[|run| - 1].at);
      hide React;
    }
  }

  // ---------- What rests a gateway, and until when ----------

  /** A bad-gateway, unavailable or timeout answer whose root makes enough distinct ones within the window. */
  ghost predicate TripsAt(cfg: Settings, run: seq<Told>, k: nat)
    requires k < |run|
  {
    var t := run[k];
    && (t.answer.status == 502 || t.answer.status == 503 || t.answer.status == 504)
    && |RecentRoots(cfg, SinceTrip(cfg, run[..k]) + [Failure(t.answer.cid, t.at)], t.at)| >= cfg.minCids
  }

  /** How long a rate-limited answer asks for: what its header says, up to the cap; a minute if that says nothing. */
  function AskedFor(cfg: Settings, value: RetryAfter, now: nat): nat {
    match value
    case Missing => 60000
    case Seconds(n) => if 1000 * n <= cfg.maxCooldownMs then 1000 * n else cfg.maxCooldownMs
    case Date(at) =>
      if at <= now then 0 else if at - now <= cfg.maxCooldownMs then at - now else cfg.maxCooldownMs
  }

  /** Until when answer `k` of a run rests the gateway; an answer that does not rest it rests it until the epoch. */
  ghost function RestsUntil(cfg: Settings, run: seq<Told>, k: nat): nat
    requires k < |run|
  {
    var t := run[k];
    if t.answer.status == 429 then t.at + AskedFor(cfg, t.answer.retryAfter, t.at)
    else if TripsAt(cfg, run, k) then t.at + 30000
    else 0
  }

  lemma ReactionRests(cfg: Settings, run: seq<Told>)
    requires run != [] && Monotone(run)
    ensures var k := |run| - 1;
            Run(cfg, run).cooldownUntil == Max(Run(cfg, run[..k]).cooldownUntil, RestsUntil(cfg, run, k))
  {
    hide RecentRoots, SinceTrip, Observe;
    var k := |run| - 1;
    var t := run[k];
    if Qualifies(t.answer.status) {
      RunTripsLikeReference(cfg, run[..k], Failure(t.answer.cid, t.at), t.answer.status);
    }
    UnqualifiedNeverTrips(cfg, Run(cfg, run[..k]).serverErrorCids, t);
    hide Run;
    RunLast(cfg, run);
  }

  lemma UnqualifiedNeverTrips(cfg: Settings, cids: map<string, nat>, t: Told)
    ensures !Qualifies(t.answer.status) ==> !Observe(cfg, cids, t.answer.cid, t.answer.status, t.at).1
  {
  }

  lemma RunLast(cfg: Settings, run: seq<Told>)
    requires run != []
    ensures var k := |run| - 1; Run(cfg, run) == React(cfg, Run(cfg, run[..k]), run[k].answer, run[k].at)
  {
    hide React;
  }

  /** An answer counts the same in every longer run. */
  lemma RestsAlike(cfg: Settings, run: seq<Told>, n: nat, k: nat)
    requires k < n <= |run|
    ensures RestsUntil(cfg, run[..n], k) == RestsUntil(cfg, run, k)
  {
    assert run[..n][..k] == run[..k];
  }

  /** Over every run of answers a gateway may be tried exactly when every rest that an answer imposed is over. */
  lemma {:induction false} EligibleIffRested(cfg: Settings, run: seq<Told>, now: nat)
    requires Monotone(run)
    ensures Run(cfg, run).cooldownUntil <= now <==> forall k :: 0 <= k < |run| ==> RestsUntil(cfg, run, k) <= now
  {
    hide Run, RestsUntil;
    if run == [] {
      NothingRests(cfg);
    } else {
      var n := |run| - 1;
      EligibleIffRested(cfg, run[..n], now);
      ReactionRests(cfg, run);
      forall k | 0 <= k < n ensures RestsUntil(cfg, run[..n], k) == RestsUntil(cfg, run, k) {
        RestsAlike(cfg, run, n, k);
      }
    }
  }

  lemma NothingRests(cfg: Settings)
    ensures Run(cfg, []).cooldownUntil == 0
  {
  }

  /** After a bad answer from enough distinct roots a gateway is not tried for half a minute, whatever comes next. */
  lemma TripRests(cfg: Settings, run: seq<Told>, k: nat, now: nat)
    requires Monotone(run) && k < |run| && TripsAt(cfg, run, k) && now < run[k].at + 30000
    ensures Run(cfg, run).cooldownUntil > now
  {
    EligibleIffRested(cfg, run, now);
    assert RestsUntil(cfg, run, k) > now;
  }
}
