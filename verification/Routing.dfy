/**
 Which endpoints a request may use, and in which order: a stable sort by state
 and latency, filtered to fresh, verified records close to the highest head.
 */
module Routing {
  import opened Options
  import opened Health

  // ---------- Order ----------

  function Rank(s: State): nat {
    match s
    case Up => 0
    case Unknown => 1
    case Stalled => 2
    case Down => 3
  }

  /** A latency never measured counts as infinite. */
  predicate Faster(a: Option<nat>, b: Option<nat>) {
    a.Some? && (b.None? || a.value < b.value)
  }

  predicate Precedes(a: Record, b: Record) {
    Rank(a.state) < Rank(b.state) || (Rank(a.state) == Rank(b.state) && Faster(a.lastLatency, b.lastLatency))
  }

  /** Put `r` behind everything it does not precede. */
  function Insert(rs: seq<Record>, r: Record): (s: seq<Record>)
    ensures multiset(s) == multiset(rs) + multiset{r}
  {
    if rs == [] then [r]
    else
      var init, last := rs[..|rs| - 1], rs[|rs| - 1];
      assert rs == init + [last];
      if Precedes(r, last) then Insert(init, r) + [last] else rs + [r]
  }

  function Sort(rs: seq<Record>): (s: seq<Record>)
    ensures multiset(s) == multiset(rs)
  {
    if rs == [] then []
    else
      assert rs == rs[..|rs| - 1] + [rs[|rs| - 1]];
      Insert(Sort(rs[..|rs| - 1]), rs[|rs| - 1])
  }

  ghost predicate Sorted(rs: seq<Record>) {
    forall i, j :: 0 <= i < j < |rs| ==> !Precedes(rs[j], rs[i])
  }

  lemma {:induction false} InsertSorted(rs: seq<Record>, r: Record)
    requires Sorted(rs)
    ensures Sorted(Insert(rs, r))
  {
    if rs != [] {
      var init, last := rs[..|rs| - 1], rs[|rs| - 1];
      assert Sorted(init);
      if Precedes(r, last) {
        InsertSorted(init, r);
        var s := Insert(init, r);
        forall i | 0 <= i < |s| ensures !Precedes(last, s[i]) {
          assert s[i] in multiset(s);
          assert s[i] in init || s[i] == r;
        }
      } else {
        forall i | 0 <= i < |rs| ensures !Precedes(r, rs[i]) {
          assert i < |rs| - 1 ==> !Precedes(last, rs[i]);
        }
      }
    }
  }

  lemma {:induction false} SortSorted(rs: seq<Record>)
    ensures Sorted(Sort(rs))
  {
    if rs != [] {
      SortSorted(rs[..|rs| - 1]);
      InsertSorted(Sort(rs[..|rs| - 1]), rs[|rs| - 1]);
    }
  }

  /** Nobody is listed behind a slower one in the same state; a latency never measured is slower than any. */
  ghost predicate FastestFirst(rs: seq<Record>) {
    forall i, j :: 0 <= i < j < |rs| && rs[i].state == rs[j].state && rs[j].lastLatency.Some? ==>
      rs[i].lastLatency.Some? && rs[i].lastLatency.value <= rs[j].lastLatency.value
  }

  /** Endpoints that are up come first, then those never seen, then stalled ones, then those that are down. */
  ghost predicate BestFirst(rs: seq<Record>) {
    forall i, j :: 0 <= i < j < |rs| ==>
      && (rs[j].state.Up? ==> rs[i].state.Up?)
      && (rs[j].state.Unknown? ==> rs[i].state.Up? || rs[i].state.Unknown?)
      && (rs[i].state.Down? ==> rs[j].state.Down?)
  }

  lemma SortRanks(rs: seq<Record>)
    ensures BestFirst(Sort(rs)) && FastestFirst(Sort(rs))
  {
    hide Sort;
    SortSorted(rs);
    var s := Sort(rs);
    forall i, j | 0 <= i < j < |s| ensures !Precedes(s[j], s[i]) {}
  }

  function Filter(rs: seq<Record>, p: Record -> bool): (s: seq<Record>)
    ensures forall r :: r in s <==> r in rs && p(r)
  {
    if rs == [] then []
    else
      var init, last := rs[..|rs| - 1], rs[|rs| - 1];
      assert rs == init + [last];
      Filter(init, p) + if p(last) then [last] else []
  }

  lemma {:induction false} FilterSnoc(rs: seq<Record>, r: Record, p: Record -> bool)
    ensures Filter(rs + [r], p) == Filter(rs, p) + if p(r) then [r] else []
  {
    assert (rs + [r])[..|rs|] == rs;
  }

  /** Inserting behind a sorted run where nothing is preceded appends. */
  lemma {:induction false} InsertLast(rs: seq<Record>, r: Record)
    requires forall x :: x in rs ==> !Precedes(r, x)
    ensures Insert(rs, r) == rs + [r]
  {
  }

  lemma FilterInsertSnoc(init: seq<Record>, last: Record, r: Record, p: Record -> bool)
    requires Precedes(r, last)
    requires Filter(Insert(init, r), p) == if p(r) then Insert(Filter(init, p), r) else Filter(init, p)
    ensures Filter(Insert(init + [last], r), p) ==
              if p(r) then Insert(Filter(init + [last], p), r) else Filter(init + [last], p)
  {
    hide Filter, Insert;
    var kept, placed := Filter(init, p), Filter(Insert(init, r), p);
    FilterSnoc(init, last, p);
    FilterSnoc(Insert(init, r), last, p);
    InsertSnoc(init, last, r);
    if p(last) {
      InsertSnoc(kept, last, r);
    } else {
      assert kept + [] == kept && placed + [] == placed;
    }
  }

  lemma InsertSnoc(init: seq<Record>, last: Record, r: Record)
    requires Precedes(r, last)
    ensures Insert(init + [last], r) == Insert(init, r) + [last]
  {
    assert (init + [last])[..|init|] == init;
  }

  /** A record that does not precede the last of a ranking precedes none of what a filter keeps of it. */
  lemma LastStaysLast(rs: seq<Record>, r: Record, p: Record -> bool)
    requires Sorted(rs) && rs != [] && !Precedes(r, rs[|rs| - 1])
    ensures forall x :: x in Filter(rs, p) ==> !Precedes(r, x)
  {
    forall x | x in Filter(rs, p) ensures !Precedes(r, x) {
      assert x in rs;
      var i :| 0 <= i < |rs| && rs[i] == x;
      assert i < |rs| - 1 ==> !Precedes(rs[|rs| - 1], rs[i]);
    }
  }

  lemma FilterInsertFirst(r: Record, p: Record -> bool)
    ensures Filter(Insert([], r), p) == if p(r) then Insert(Filter([], p), r) else Filter([], p)
  {
    FilterSnoc([], r, p);
    assert [] + [r] == [r];
  }

  lemma FilterInsertAfter(rs: seq<Record>, r: Record, p: Record -> bool)
    requires Sorted(rs) && rs != [] && !Precedes(r, rs[|rs| - 1])
    ensures Filter(Insert(rs, r), p) == if p(r) then Insert(Filter(rs, p), r) else Filter(rs, p)
  {
    assert Insert(rs, r) == rs + [r];
    hide Filter, Insert, Sorted;
    FilterSnoc(rs, r, p);
    LastStaysLast(rs, r, p);
    InsertLast(Filter(rs, p), r);
    assert Filter(rs, p) + [] == Filter(rs, p);
  }

  lemma {:induction false} FilterInsert(rs: seq<Record>, r: Record, p: Record -> bool)
    requires Sorted(rs)
    ensures Filter(Insert(rs, r), p) == if p(r) then Insert(Filter(rs, p), r) else Filter(rs, p)
  {
    hide Filter, Insert;
    if rs == [] {
      FilterInsertFirst(r, p);
    } else if Precedes(r, rs[|rs| - 1]) {
      FilterInsert(rs[..|rs| - 1], r, p);
      FilterInsertSnoc(rs[..|rs| - 1], rs[|rs| - 1], r, p);
      assert rs == rs[..|rs| - 1] + [rs[|rs| - 1]];
    } else {
      FilterInsertAfter(rs, r, p);
    }
  }

  lemma SortSnoc(rs: seq<Record>, r: Record)
    ensures Sort(rs + [r]) == Insert(Sort(rs), r)
  {
    assert (rs + [r])[..|rs|] == rs;
  }

  /** Sorting commutes with filtering: a filtered ranking is the ranking of what was kept. */
  lemma {:induction false} FilterSort(rs: seq<Record>, p: Record -> bool)
    ensures Filter(Sort(rs), p) == Sort(Filter(rs, p))
  {
    if rs != [] {
      hide Sort, Filter, Insert;
      var init, last := rs[..|rs| - 1], rs[|rs| - 1];
      assert rs == init + [last];
      FilterSort(init, p);
      SortSnoc(init, last);
      SortSorted(init);
      FilterInsert(Sort(init), last, p);
      FilterSnoc(init, last, p);
      SortSnoc(Filter(init, p), last);
      assert !p(last) ==> Filter(rs, p) == Filter(init, p);
    }
  }

  predicate SameRank(a: Record, b: Record) {
    Rank(a.state) == Rank(b.state) && a.lastLatency == b.lastLatency
  }

  lemma {:induction false} SortOfEquals(rs: seq<Record>)
    requires forall a, b :: a in rs && b in rs ==> SameRank(a, b)
    ensures Sort(rs) == rs
  {
    if rs != [] {
      var init, last := rs[..|rs| - 1], rs[|rs| - 1];
      assert rs == init + [last];
      SortOfEquals(init);
      forall x | x in init ensures !Precedes(last, x) {
        assert SameRank(last, x);
      }
      InsertLast(init, last);
    }
  }

  /** Endpoints that rank alike keep their configured order. */
  lemma SortStable(rs: seq<Record>, r: Record)
    ensures Filter(Sort(rs), x => SameRank(x, r)) == Filter(rs, x => SameRank(x, r))
  {
    var p := x => SameRank(x, r);
    FilterSort(rs, p);
    SortOfEquals(Filter(rs, p));
  }

  function Urls(rs: seq<Record>): (urls: seq<string>)
    ensures |urls| == |rs| && forall i :: 0 <= i < |rs| ==> urls[i] == rs[i].url
  {
    seq(|rs|, i requires 0 <= i < |rs| => rs[i].url)
  }

  function OrderEndpoints(rs: seq<Record>): seq<string> {
    Urls(Sort(rs))
  }

  // ---------- Readiness ----------

  function MaxPollAge(cfg: Settings): nat {
    Max(cfg.pollInterval * 3, cfg.pollTimeout * 2)
  }

  predicate HasFreshHead(cfg: Settings, r: Record, now: nat) {
    && r.state.Up?
    && r.syncing == Some(false)
    && r.lastHeight.Some?
    && r.headTimestamp.Some?
    && r.lastVerifiedPollAt.Some?
    && now - r.lastVerifiedPollAt.value <= MaxPollAge(cfg)
    && now - r.headTimestamp.value <= cfg.maxHeadAge
    && r.headTimestamp.value - now <= cfg.maxHeadFuture
  }

  /** Fresh, and verified against the pinned identity when the network has one. */
  predicate Eligible(cfg: Settings, r: Record, expected: Option<Identity>, now: nat) {
    HasFreshHead(cfg, r, now) && (expected.None? || r.verified == expected)
  }

  function Height(r: Record): nat {
    match r.lastHeight
    case None => 0
    case Some(h) => h
  }

  function Highest(rs: seq<Record>): (h: nat)
    ensures forall r :: r in rs ==> Height(r) <= h
    ensures rs != [] ==> exists r :: r in rs && Height(r) == h
  {
    if rs == [] then 0
    else
      var init, last := rs[..|rs| - 1], rs[|rs| - 1];
      assert rs == init + [last];
      assert last in rs;
      Max(Highest(init), Height(last))
  }

  function EligibleRecords(cfg: Settings, rs: seq<Record>, expected: Option<Identity>, now: nat): (s: seq<Record>)
    ensures forall r :: r in s <==> r in rs && Eligible(cfg, r, expected, now)
  {
    Filter(rs, r => Eligible(cfg, r, expected, now))
  }

  /** The eligible records within the allowed lag of the highest of them. */
  function ServingRecords(cfg: Settings, rs: seq<Record>, expected: Option<Identity>, now: nat): (s: seq<Record>) {
    var eligible := EligibleRecords(cfg, rs, expected, now);
    Filter(eligible, r => Highest(eligible) - Height(r) <= cfg.maxLag)
  }

  function ReadyUrls(cfg: Settings, rs: seq<Record>, expected: Option<Identity>, now: nat): set<string> {
    set r | r in ServingRecords(cfg, rs, expected, now) :: r.url
  }

  function Keep(urls: seq<string>, ready: set<string>): (kept: seq<string>)
    ensures forall u :: u in kept <==> u in urls && u in ready
  {
    if urls == [] then []
    else
      var init, last := urls[..|urls| - 1], urls[|urls| - 1];
      assert urls == init + [last];
      Keep(init, ready) + if last in ready then [last] else []
  }

  function ReadyEndpoints(cfg: Settings, rs: seq<Record>, expected: Option<Identity>, now: nat): seq<string> {
    Keep(OrderEndpoints(rs), ReadyUrls(cfg, rs, expected, now))
  }

  /** The record may serve requests: eligible, and within the lag of every eligible record. */
  ghost predicate Serves(cfg: Settings, rs: seq<Record>, r: Record, expected: Option<Identity>, now: nat) {
    && r in rs
    && Eligible(cfg, r, expected, now)
    && forall other :: other in rs && Eligible(cfg, other, expected, now) ==> Height(other) - Height(r) <= cfg.maxLag
  }

  lemma ServesIffReady(cfg: Settings, rs: seq<Record>, r: Record, expected: Option<Identity>, now: nat)
    ensures r in ServingRecords(cfg, rs, expected, now) <==> Serves(cfg, rs, r, expected, now)
  {
  }

  lemma OrderedUrls(rs: seq<Record>, u: string)
    ensures u in OrderEndpoints(rs) <==> exists r :: r in rs && r.url == u
  {
    var s := Sort(rs);
    forall r ensures r in rs <==> r in s {
      assert r in multiset(rs) <==> r in multiset(s);
    }
    if u in OrderEndpoints(rs) {
      var i :| 0 <= i < |s| && Urls(s)[i] == u;
      assert s[i] in rs;
    }
    if r :| r in rs && r.url == u {
      var i :| 0 <= i < |s| && s[i] == r;
      assert Urls(s)[i] == u;
    }
  }

  /** A URL is offered exactly when some record with that URL may serve requests. */
  lemma ReadyExactly(cfg: Settings, rs: seq<Record>, expected: Option<Identity>, now: nat, u: string)
    ensures u in ReadyEndpoints(cfg, rs, expected, now) <==>
              exists r :: Serves(cfg, rs, r, expected, now) && r.url == u
  {
    hide ServingRecords, Serves, OrderEndpoints;
    OrderedUrls(rs, u);
    forall r ensures r in ServingRecords(cfg, rs, expected, now) <==> Serves(cfg, rs, r, expected, now) {
      ServesIffReady(cfg, rs, r, expected, now);
    }
    forall r | Serves(cfg, rs, r, expected, now) ensures r in rs {
      ServingIsListed(cfg, rs, r, expected, now);
    }
  }

  lemma ServingIsListed(cfg: Settings, rs: seq<Record>, r: Record, expected: Option<Identity>, now: nat)
    requires Serves(cfg, rs, r, expected, now)
    ensures r in rs && Eligible(cfg, r, expected, now)
  {
  }

  /** Something is offered exactly when some record is eligible. */
  lemma SomethingIsReady(cfg: Settings, rs: seq<Record>, expected: Option<Identity>, now: nat)
    ensures ReadyEndpoints(cfg, rs, expected, now) != [] <==>
              exists r :: r in rs && Eligible(cfg, r, expected, now)
  {
    hide ReadyEndpoints, Eligible;
    var ready := ReadyEndpoints(cfg, rs, expected, now);
    if ready != [] {
      assert ready[0] in ready;
      ReadyExactly(cfg, rs, expected, now, ready[0]);
    }
    if r :| r in rs && Eligible(cfg, r, expected, now) {
      var eligible := EligibleRecords(cfg, rs, expected, now);
      assert r in eligible;
      var top :| top in eligible && Height(top) == Highest(eligible);
      ServesIffReady(cfg, rs, top, expected, now);
      ReadyExactly(cfg, rs, expected, now, top.url);
    }
  }

  ghost predicate DistinctUrls(rs: seq<Record>) {
    forall i, j :: 0 <= i < j < |rs| ==> rs[i].url != rs[j].url
  }

  lemma KeepSnoc(urls: seq<string>, u: string, ready: set<string>)
    ensures Keep(urls + [u], ready) == Keep(urls, ready) + if u in ready then [u] else []
  {
    assert (urls + [u])[..|urls|] == urls;
  }

  lemma UrlsSnoc(rs: seq<Record>, r: Record)
    ensures Urls(rs + [r]) == Urls(rs) + [r.url]
  {
  }

  lemma {:induction false} KeepIsFilter(rs: seq<Record>, ready: set<string>, p: Record -> bool)
    requires forall r :: r in rs ==> (p(r) <==> r.url in ready)
    ensures Keep(Urls(rs), ready) == Urls(Filter(rs, p))
  {
    if rs != [] {
      hide Keep, Filter, Urls;
      var init, last := rs[..|rs| - 1], rs[|rs| - 1];
      assert rs == init + [last];
      assert forall r :: r in init ==> r in rs;
      KeepIsFilter(init, ready, p);
      UrlsSnoc(init, last);
      KeepSnoc(Urls(init), last.url, ready);
      FilterSnoc(init, last, p);
      UrlsSnoc(Filter(init, p), last);
      assert !p(last) ==> Filter(rs, p) == Filter(init, p);
    }
  }

  lemma {:induction false} FilterTwice(rs: seq<Record>, p: Record -> bool, q: Record -> bool)
    ensures Filter(Filter(rs, p), q) == Filter(rs, r => p(r) && q(r))
  {
    if rs != [] {
      var init, last := rs[..|rs| - 1], rs[|rs| - 1];
      hide Filter;
      assert rs == init + [last];
      FilterTwice(init, p, q);
      FilterSnoc(init, last, p);
      FilterSnoc(init, last, r => p(r) && q(r));
      FilterSnoc(Filter(init, p), last, q);
      assert !p(last) ==> Filter(rs, p) == Filter(init, p);
    }
  }

  lemma SortKeepsMembers(rs: seq<Record>, r: Record)
    ensures r in Sort(rs) <==> r in rs
  {
    assert r in Sort(rs) <==> r in multiset(Sort(rs));
    assert r in rs <==> r in multiset(rs);
  }

  lemma ServingSorts(cfg: Settings, rs: seq<Record>, expected: Option<Identity>, now: nat, p: Record -> bool)
    requires DistinctUrls(rs)
    requires p == (r => Eligible(cfg, r, expected, now) &&
        Highest(EligibleRecords(cfg, rs, expected, now)) - Height(r) <= cfg.maxLag)
    ensures ServingRecords(cfg, rs, expected, now) == Filter(rs, p)
    ensures forall r :: r in Sort(rs) ==> (p(r) <==> r.url in ReadyUrls(cfg, rs, expected, now))
  {
    var eligible := EligibleRecords(cfg, rs, expected, now);
    var q := r => Highest(eligible) - Height(r) <= cfg.maxLag;
    var e := r => Eligible(cfg, r, expected, now);
    FilterTwice(rs, e, q);
    FilterSame(rs, r => e(r) && q(r), p);
    hide Eligible, EligibleRecords, Highest;
    forall r | r in Sort(rs) ensures p(r) <==> r.url in ReadyUrls(cfg, rs, expected, now) {
      SortKeepsMembers(rs, r);
      if r.url in ReadyUrls(cfg, rs, expected, now) {
        var x :| x in Filter(rs, p) && x.url == r.url;
        assert x == r;
      } else {
        assert r !in Filter(rs, p);
      }
    }
  }

  lemma {:induction false} FilterSame(rs: seq<Record>, p: Record -> bool, q: Record -> bool)
    requires forall r :: r in rs ==> p(r) == q(r)
    ensures Filter(rs, p) == Filter(rs, q)
  {
    if rs != [] {
      var init, last := rs[..|rs| - 1], rs[|rs| - 1];
      assert rs == init + [last];
      FilterSame(init, p, q);
    }
  }

  /** With distinct URLs the offer is the serving records alone, ranked by latency, ties in configured order. */
  lemma ReadyIsRanked(cfg: Settings, rs: seq<Record>, expected: Option<Identity>, now: nat)
    requires DistinctUrls(rs)
    ensures var ranked := Sort(ServingRecords(cfg, rs, expected, now));
            && ReadyEndpoints(cfg, rs, expected, now) == Urls(ranked)
            && (forall r :: r in ranked <==> Serves(cfg, rs, r, expected, now))
            && FastestFirst(ranked) && forall r :: r in ranked ==> r.state.Up?
  {
    var p := r => Eligible(cfg, r, expected, now) &&
        Highest(EligibleRecords(cfg, rs, expected, now)) - Height(r) <= cfg.maxLag;
    var serving := ServingRecords(cfg, rs, expected, now);
    ServingSorts(cfg, rs, expected, now, p);
    KeepIsFilter(Sort(rs), ReadyUrls(cfg, rs, expected, now), p);
    FilterSort(rs, p);
    SortRanks(serving);
    hide ServingRecords, Sort, Filter, Serves, Eligible, EligibleRecords, Highest, FastestFirst;
    forall r ensures r in Sort(serving) <==> Serves(cfg, rs, r, expected, now) {
      ServesIffReady(cfg, rs, r, expected, now);
      SortKeepsMembers(serving, r);
    }
    forall r | r in Sort(serving) ensures r.state.Up? {
      ServingIsUp(cfg, rs, r, expected, now);
    }
  }

  lemma ServingIsUp(cfg: Settings, rs: seq<Record>, r: Record, expected: Option<Identity>, now: nat)
    requires Serves(cfg, rs, r, expected, now)
    ensures r.state.Up?
  {
  }

  // ---------- Routing over every poll trace ----------

  function Records(cfg: Settings, fleet: seq<Trace>): (rs: seq<Record>)
    ensures |rs| == |fleet| && forall i :: 0 <= i < |fleet| ==> rs[i] == fleet[i].After(cfg)
  {
    seq(|fleet|, i requires 0 <= i < |fleet| => fleet[i].After(cfg))
  }

  /** The endpoint is up, and its last successful poll is recent and showed a synchronised, recent head; on a pinned
      network it is the last poll of all and named the pinned chain. */
  ghost predicate Proven(cfg: Settings, t: Trace, now: nat) {
    && t.After(cfg).state.Up?
    && t.LastSuccess().Some?
    && var s := t.LastSuccess().value;
       var reply := s.Last().reply;
       && reply.height.Some? && reply.syncing == Some(false) && reply.headSeconds.Some?
       && now - s.Now() <= Max(3 * cfg.pollInterval, 2 * cfg.pollTimeout)
       && now - 1000 * reply.headSeconds.value <= cfg.maxHeadAge
       && 1000 * reply.headSeconds.value - now <= cfg.maxHeadFuture
       && (t.expected.Some? ==>
             && s == t
             && reply.chainId == Some(t.expected.value.chainId)
             && reply.genesisHash == Some(t.expected.value.genesisHash))
  }

  /** The height the last successful poll showed. */
  function Shown(t: Trace): nat {
    match t.LastSuccess()
    case None => 0
    case Some(s) => if s.Last().reply.height.Some? then s.Last().reply.height.value else 0
  }

  lemma EligibleIffProven(cfg: Settings, t: Trace, now: nat)
    ensures Eligible(cfg, t.After(cfg), t.expected, now) <==> Proven(cfg, t, now)
    ensures Height(t.After(cfg)) == Shown(t)
    ensures t.After(cfg).url == t.url
  {
    RecordCounts(cfg, t);
    hide Trace.After, Verdict;
    if t.LastSuccess().Some? {
      VerdictIff(t.LastSuccess().value.Last().reply, t.expected);
      LastSuccessIsOwn(t);
    }
  }

  /** The last success is the trace itself exactly when its last poll succeeded; its pin is the trace's. */
  lemma {:induction false} LastSuccessIsOwn(t: Trace)
    requires t.LastSuccess().Some?
    ensures t.LastSuccess().value.expected == t.expected
    ensures t.LastSuccess().value == t <==> t.polls != [] && t.Evidence().Some?
    decreases |t.polls|
  {
    if t.Evidence().None? {
      LastSuccessIsOwn(t.Before());
    }
  }

  /** Over every poll history: a URL is offered on a network exactly when an endpoint with it is proven and near the
      highest height that a proven endpoint showed. */
  lemma OfferedIffProven(cfg: Settings, fleet: seq<Trace>, expected: Option<Identity>, now: nat, u: string)
    requires forall t :: t in fleet ==> t.expected == expected
    ensures u in ReadyEndpoints(cfg, Records(cfg, fleet), expected, now) <==>
              exists t :: t in fleet && t.url == u && Proven(cfg, t, now) &&
                          forall other :: other in fleet && Proven(cfg, other, now) ==>
                            Shown(other) - Shown(t) <= cfg.maxLag
  {
    var rs := Records(cfg, fleet);
    ReadyExactly(cfg, rs, expected, now, u);
    hide ReadyEndpoints, Eligible, Proven, Trace.After, Height, Shown;
    forall t | t in fleet
      ensures Serves(cfg, rs, t.After(cfg), expected, now) <==>
                Proven(cfg, t, now) && forall other :: other in fleet && Proven(cfg, other, now) ==>
                                         Shown(other) - Shown(t) <= cfg.maxLag
      ensures t.After(cfg).url == t.url
    {
      ServesIffProven(cfg, fleet, expected, now, t);
    }
    forall r ensures r in rs <==> exists t :: t in fleet && t.After(cfg) == r {
      RecordsOf(cfg, fleet, r);
    }
    hide Serves, Records;
    if r :| Serves(cfg, rs, r, expected, now) && r.url == u {
      ServingIsListed(cfg, rs, r, expected, now);
      var t :| t in fleet && t.After(cfg) == r;
    }
  }

  lemma RecordsOf(cfg: Settings, fleet: seq<Trace>, r: Record)
    ensures r in Records(cfg, fleet) <==> exists t :: t in fleet && t.After(cfg) == r
  {
    var rs := Records(cfg, fleet);
    hide Trace.After;
    if r in rs {
      var i :| 0 <= i < |rs| && rs[i] == r;
      assert fleet[i] in fleet;
    }
    if t :| t in fleet && t.After(cfg) == r {
      var i :| 0 <= i < |fleet| && fleet[i] == t;
      assert rs[i] == r;
    }
  }

  lemma ServesIffProven(cfg: Settings, fleet: seq<Trace>, expected: Option<Identity>, now: nat, t: Trace)
    requires t in fleet && forall other :: other in fleet ==> other.expected == expected
    ensures Serves(cfg, Records(cfg, fleet), t.After(cfg), expected, now) <==>
              Proven(cfg, t, now) && forall other :: other in fleet && Proven(cfg, other, now) ==>
                                       Shown(other) - Shown(t) <= cfg.maxLag
    ensures t.After(cfg).url == t.url
  {
    hide Eligible, Proven, Trace.After, Height, Shown, Records;
    var rs := Records(cfg, fleet);
    forall other | other in fleet
      ensures Eligible(cfg, other.After(cfg), expected, now) <==> Proven(cfg, other, now)
      ensures Height(other.After(cfg)) == Shown(other) && other.After(cfg).url == other.url
      ensures other.After(cfg) in rs
    {
      EligibleIffProven(cfg, other, now);
      RecordsOf(cfg, fleet, other.After(cfg));
    }
    if Serves(cfg, rs, t.After(cfg), expected, now) {
      forall other | other in fleet && Proven(cfg, other, now) ensures Shown(other) - Shown(t) <= cfg.maxLag {
        assert Eligible(cfg, other.After(cfg), expected, now);
      }
    }
    forall r | r in rs ensures exists other :: other in fleet && other.After(cfg) == r {
      RecordsOf(cfg, fleet, r);
    }
  }

  /** Over every poll history: of two endpoints offered, the one listed first was no slower when last heard of. */
  lemma OfferedFastestFirst(cfg: Settings, fleet: seq<Trace>, expected: Option<Identity>, now: nat, i: nat, j: nat)
    requires DistinctUrls(Records(cfg, fleet))
    requires i < j < |ReadyEndpoints(cfg, Records(cfg, fleet), expected, now)|
    ensures var urls := ReadyEndpoints(cfg, Records(cfg, fleet), expected, now);
            exists a, b :: && a in fleet && b in fleet && a.url == urls[i] && b.url == urls[j]
                           && a.Latency().Some? && b.Latency().Some? && a.Latency().value <= b.Latency().value
  {
    var rs := Records(cfg, fleet);
    ReadyIsRanked(cfg, rs, expected, now);
    var ranked := Sort(ServingRecords(cfg, rs, expected, now));
    hide ReadyEndpoints, Sort, ServingRecords, Records, Trace.After;
    var a := OfferedFrom(cfg, fleet, ranked[i], expected, now);
    var b := OfferedFrom(cfg, fleet, ranked[j], expected, now);
    hide Serves;
  }

  lemma OfferedFrom(cfg: Settings, fleet: seq<Trace>, r: Record, expected: Option<Identity>, now: nat)
    returns (t: Trace)
    requires Serves(cfg, Records(cfg, fleet), r, expected, now)
    ensures t in fleet && t.After(cfg) == r && t.url == r.url
    ensures r.lastLatency == t.Latency() && t.Latency().Some?
  {
    hide Trace.After, Records;
    RecordsOf(cfg, fleet, r);
    t :| t in fleet && t.After(cfg) == r;
    RecordCounts(cfg, t);
    RecordLatency(cfg, t);
    HeardOf(t);
  }

  lemma {:induction false} HeardOf(t: Trace)
    ensures t.LastSuccess().Some? ==> t.Latency().Some?
    decreases |t.polls|
  {
    if t.polls != [] {
      HeardOf(t.Before());
    }
  }
}
