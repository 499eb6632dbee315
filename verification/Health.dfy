/**
 The health record of one RPC endpoint and how polls move it: a four-state
 machine with hysteresis. A poll is its evidence and its clock readings; the
 lemmas hold over every sequence of polls.
 */
module Health {
  import opened Options

  /** Declared in the order in which endpoints are preferred. */
  datatype State = Up | Unknown | Stalled | Down

  datatype Settings = Settings(
    pollInterval: Pos, pollTimeout: Pos, downAfter: Pos, upAfter: Pos, stallAfter: Pos,
    maxHeadAge: Pos, maxHeadFuture: Pos, maxLag: nat)

  datatype Identity = Identity(chainId: string, genesisHash: string)

  datatype Record = Record(
    url: string,
    state: State,
    failures: nat,
    successes: nat,
    lastHeight: Option<nat>,
    lastHeightChangeAt: nat,
    lastLatency: Option<nat>,
    lastVerifiedPollAt: Option<nat>,
    headTimestamp: Option<nat>,
    syncing: Option<bool>,
    verified: Option<Identity>)

  function MakeRecord(url: string, now: nat): Record {
    Record(url, Unknown, 0, 0, None, now, None, None, None, None, None)
  }

  /** What the poll's calls returned, `None` where a call failed or its answer was malformed, and after how long the
      first response of any kind came, if one did. */
  datatype Reply = Reply(
    height: Option<nat>, chainId: Option<string>, genesisHash: Option<string>,
    syncing: Option<bool>, headSeconds: Option<nat>, firstAfter: Option<nat>)

  datatype Evidence = Evidence(height: nat, syncing: bool, headTimestamp: nat)

  /** The largest whole number of seconds whose milliseconds are a safe integer. */
  const MAX_HEAD_SECONDS := 9007199254740991 / 1000

  /** A poll succeeds when every call it needs answered, and on a pinned network named the pinned chain. */
  function Verdict(reply: Reply, expected: Option<Identity>): Option<Evidence> {
    if reply.height.None? then None
    else if expected.Some? && reply.chainId != Some(expected.value.chainId) then None
    else if expected.Some? && reply.genesisHash != Some(expected.value.genesisHash) then None
    else if reply.syncing.None? || reply.headSeconds.None? || reply.headSeconds.value > MAX_HEAD_SECONDS then None
    else Some(Evidence(reply.height.value, reply.syncing.value, reply.headSeconds.value * 1000))
  }

  /** A poll succeeds exactly when it showed a height, the syncing flag and a head time that fits a safe integer, and on
      a pinned network the pinned chain id and genesis; what it is taken for is what was shown, in milliseconds. */
  lemma VerdictIff(reply: Reply, expected: Option<Identity>)
    ensures Verdict(reply, expected).Some? <==>
              && reply.height.Some? && reply.syncing.Some?
              && reply.headSeconds.Some? && reply.headSeconds.value <= 9007199254740
              && (expected.Some? ==>
                    && reply.chainId == Some(expected.value.chainId)
                    && reply.genesisHash == Some(expected.value.genesisHash))
    ensures Verdict(reply, expected).Some? ==>
              var e := Verdict(reply, expected).value;
              && e.height == reply.height.value && e.syncing == reply.syncing.value
              && e.headTimestamp == 1000 * reply.headSeconds.value
  {
  }

  predicate Advances(rec: Record, height: nat) {
    rec.lastHeight.None? || height > rec.lastHeight.value
  }

  /** The state after a successful poll, given the counters it has already updated. */
  function SuccessState(cfg: Settings, rec: Record, advanced: bool, now: nat): State {
    var recovered := rec.state.Down? && rec.successes >= cfg.upAfter;
    if advanced then
      if rec.state.Unknown? || rec.state.Stalled? || recovered then Up else rec.state
    else if now - rec.lastHeightChangeAt > cfg.stallAfter then Stalled
    else if rec.state.Unknown? || recovered then Up
    else rec.state
  }

  function ApplyPollSuccess(cfg: Settings, rec: Record, height: nat, now: nat): Record {
    var advanced := Advances(rec, height);
    var counted := rec.(
      lastHeight := Some(height),
      lastHeightChangeAt := if advanced then now else rec.lastHeightChangeAt,
      successes := rec.successes + 1,
      failures := 0);
    counted.(state := SuccessState(cfg, counted, advanced, now))
  }

  function ApplyFailure(cfg: Settings, rec: Record): Record {
    rec.(verified := None,
         failures := rec.failures + 1,
         successes := 0,
         state := if rec.failures + 1 >= cfg.downAfter then Down else rec.state)
  }

  function PollOne(cfg: Settings, rec: Record, reply: Reply, expected: Option<Identity>, start: nat, now: nat): Record
    requires start <= now
  {
    match Verdict(reply, expected)
    case None =>
      var heard := if reply.firstAfter.Some? then reply.firstAfter else rec.lastLatency;
      ApplyFailure(cfg, rec.(lastLatency := heard))
    case Some(e) =>
      ApplyPollSuccess(cfg, rec.(syncing := Some(e.syncing), headTimestamp := Some(e.headTimestamp),
                                 lastVerifiedPollAt := Some(now), verified := expected,
                                 lastLatency := Some(now - start)), e.height, now)
  }

  // ---------- Traces ----------

  /** A poll that started `wait` after the previous one ended and took `took`. */
  datatype Poll = Poll(reply: Reply, wait: nat, took: nat)

  /** An endpoint of a network, from its creation through all its polls. */
  datatype Trace = Trace(url: string, created: nat, expected: Option<Identity>, polls: seq<Poll>) {
    function Before(): Trace
      requires polls != []
    {
      this.(polls := polls[..|polls| - 1])
    }

    function Last(): Poll
      requires polls != []
    {
      polls[|polls| - 1]
    }

    /** When the last poll ended. */
    function Now(): nat
      decreases |polls|
    {
      if polls == [] then created else Before().Now() + Last().wait + Last().took
    }

    function Evidence(): Option<Evidence>
      requires polls != []
    {
      Verdict(Last().reply, expected)
    }

    function After(cfg: Settings): Record
      decreases |polls|
    {
      if polls == [] then MakeRecord(url, created)
      else PollOne(cfg, Before().After(cfg), Last().reply, expected, Before().Now() + Last().wait, Now())
    }

    // The reference: what the record is meant to say, read off the polls.

    function TrailingSuccesses(): nat
      decreases |polls|
    {
      if polls == [] || Evidence().None? then 0 else Before().TrailingSuccesses() + 1
    }

    function TrailingFailures(): nat
      decreases |polls|
    {
      if polls == [] || Evidence().Some? then 0 else Before().TrailingFailures() + 1
    }

    /** The trace up to its last successful poll, if any. */
    function LastSuccess(): (t: Option<Trace>)
      ensures t.Some? ==> t.value.polls != [] && t.value.Evidence().Some? && t.value.polls <= polls
      decreases |polls|
    {
      if polls == [] then None else if Evidence().Some? then Some(this) else Before().LastSuccess()
    }

    function LastHeight(): Option<nat> {
      match LastSuccess()
      case None => None
      case Some(t) => Some(t.Evidence().value.height)
    }

    /** What the last poll that got any response took: a success in all, a failure up to that response. */
    function Latency(): Option<nat>
      decreases |polls|
    {
      if polls == [] then None
      else if Evidence().Some? then Some(Last().took)
      else if Last().reply.firstAfter.Some? then Last().reply.firstAfter
      else Before().Latency()
    }

    /** When the observed height last rose above the one before it. */
    function LastAdvance(): nat
      decreases |polls|
    {
      if polls == [] then created
      else
        var prior := Before().LastHeight();
        if Evidence().Some? && (prior.None? || Evidence().value.height > prior.value) then Now()
        else Before().LastAdvance()
    }
  }

  /** The last poll succeeded with a height above the previous successful one. */
  predicate Rises(t: Trace)
    requires t.polls != []
  {
    && t.Evidence().Some?
    && (t.Before().LastHeight().None? || t.Evidence().value.height > t.Before().LastHeight().value)
  }

  /** The last poll succeeded without a rise, too long after the last one. */
  predicate Stale(cfg: Settings, t: Trace)
    requires t.polls != []
  {
    t.Evidence().Some? && !Rises(t) && t.Now() - t.LastAdvance() > cfg.stallAfter
  }

  /** The counters, the height and the last verification are what the polls say. */
  ghost predicate Counts(cfg: Settings, t: Trace, rec: Record) {
    && rec.url == t.url
    && rec.successes == t.TrailingSuccesses()
    && rec.failures == t.TrailingFailures()
    && rec.lastHeight == t.LastHeight()
    && rec.lastHeightChangeAt == t.LastAdvance()
    && (match t.LastSuccess()
        case None => rec.lastVerifiedPollAt == None && rec.headTimestamp == None && rec.syncing == None
        case Some(s) =>
          var e := s.Evidence().value;
          rec.lastVerifiedPollAt == Some(s.Now()) && rec.headTimestamp == Some(e.headTimestamp) &&
              rec.syncing == Some(e.syncing))
    && rec.verified == (if t.polls != [] && t.Evidence().Some? then t.expected else None)
  }

  /** What each state means. */
  ghost predicate Meaning(cfg: Settings, t: Trace, rec: Record) {
    && (t.TrailingFailures() >= cfg.downAfter ==> rec.state.Down?)
    && (rec.state.Down? ==> t.TrailingSuccesses() < cfg.upAfter)
    && (rec.state.Unknown? <==> t.LastSuccess().None? && |t.polls| < cfg.downAfter)
    && (rec.state.Stalled? ==> t.LastSuccess().Some? && t.LastSuccess().value.Now() - t.LastAdvance() > cfg.stallAfter)
  }

  lemma {:induction false} RecordCounts(cfg: Settings, t: Trace)
    ensures Counts(cfg, t, t.After(cfg))
    decreases |t.polls|
  {
    if t.polls != [] {
      RecordCounts(cfg, t.Before());
    }
  }

  /** The latency is that of the last poll that got any response. */
  lemma {:induction false} RecordLatency(cfg: Settings, t: Trace)
    ensures t.After(cfg).lastLatency == t.Latency()
    decreases |t.polls|
  {
    if t.polls != [] {
      RecordLatency(cfg, t.Before());
      hide SuccessState, Verdict;
    }
  }

  lemma {:induction false} NoSuccessMeansAllFailed(t: Trace)
    requires t.LastSuccess().None?
    ensures t.TrailingFailures() == |t.polls|
    decreases |t.polls|
  {
    if t.polls != [] {
      NoSuccessMeansAllFailed(t.Before());
    }
  }

  lemma {:induction false} SuccessesPrecedeNow(t: Trace)
    ensures t.LastSuccess().Some? ==> t.LastSuccess().value.Now() <= t.Now()
    decreases |t.polls|
  {
    if t.polls != [] {
      SuccessesPrecedeNow(t.Before());
    }
  }

  lemma {:induction false} StateMeaning(cfg: Settings, t: Trace)
    ensures Meaning(cfg, t, t.After(cfg))
    decreases |t.polls|
  {
    if t.polls != [] {
      RecordCounts(cfg, t.Before());
      RecordCounts(cfg, t);
      StateMeaning(cfg, t.Before());
      SuccessesPrecedeNow(t.Before());
      if t.Before().LastSuccess().None? {
        NoSuccessMeansAllFailed(t.Before());
      }
    }
  }

  // ---------- Transitions ----------

  /** Every move of the state, read off the polls: failures only lead down, and only at their threshold; a rise leads up
      unless too few successes ended a time down; a stale success stalls; any other success changes nothing but a first
      verdict or an earned recovery. */
  lemma StateFollowsPolls(cfg: Settings, t: Trace)
    requires t.polls != []
    ensures var before, after := t.Before().After(cfg).state, t.After(cfg).state;
            var earned := t.TrailingSuccesses() >= cfg.upAfter;
            if t.Evidence().None? then after == if t.TrailingFailures() >= cfg.downAfter then Down else before
            else if Stale(cfg, t) then after == Stalled
            else if before.Down? then after == if earned then Up else Down
            else if Rises(t) || before.Unknown? then after == Up
            else after == before
  {
    hide Trace.TrailingSuccesses, Trace.TrailingFailures, Trace.LastSuccess, Trace.LastHeight, Verdict;
    CountsGrow(cfg, t);
  }

  lemma CountsGrow(cfg: Settings, t: Trace)
    requires t.polls != []
    ensures Counts(cfg, t.Before(), t.Before().After(cfg)) && Counts(cfg, t, t.After(cfg))
  {
    RecordCounts(cfg, t.Before());
    RecordCounts(cfg, t);
  }

  /** An endpoint goes down exactly when its failure run reaches the threshold. */
  lemma DownExactlyAtThreshold(cfg: Settings, t: Trace)
    requires t.polls != []
    ensures !t.Before().After(cfg).state.Down? && t.After(cfg).state.Down? <==>
              !t.Before().After(cfg).state.Down? && t.TrailingFailures() == cfg.downAfter
  {
    StateMeaning(cfg, t.Before());
    StateMeaning(cfg, t);
    RecordCounts(cfg, t.Before());
    RecordCounts(cfg, t);
  }

  /** A direct step from down to up happens exactly when a success that is not stale completes the success run. */
  lemma UpFromDownExactlyAtThreshold(cfg: Settings, t: Trace)
    requires t.polls != [] && t.Before().After(cfg).state.Down?
    ensures t.After(cfg).state.Up? <==>
              t.Evidence().Some? && !Stale(cfg, t) && t.TrailingSuccesses() == cfg.upAfter
  {
    StateMeaning(cfg, t.Before());
    RecordCounts(cfg, t.Before());
    RecordCounts(cfg, t);
  }

  /** From stalled, a rise leads up, enough failures lead down, and nothing else leads anywhere. */
  lemma FromStalled(cfg: Settings, t: Trace)
    requires t.polls != [] && t.Before().After(cfg).state.Stalled?
    ensures t.After(cfg).state ==
              if Rises(t) then Up else if t.TrailingFailures() >= cfg.downAfter then Down else Stalled
    ensures t.Evidence().Some? && !Rises(t) ==> Stale(cfg, t)
  {
    StateMeaning(cfg, t.Before());
    SuccessesPrecedeNow(t.Before());
    RecordCounts(cfg, t.Before());
    RecordCounts(cfg, t);
  }

  /** From down, only a stale success stalls. */
  lemma FromDown(cfg: Settings, t: Trace)
    requires t.polls != [] && t.Before().After(cfg).state.Down?
    ensures t.After(cfg).state.Stalled? <==> Stale(cfg, t)
    ensures !t.After(cfg).state.Unknown?
  {
    hide Trace.TrailingSuccesses, Trace.TrailingFailures, Trace.LastSuccess, Trace.LastHeight, Verdict;
    RecordCounts(cfg, t.Before());
    RecordCounts(cfg, t);
  }

  /** The trace's first `k` polls. */
  function UpTo(t: Trace, k: nat): Trace
    requires k <= |t.polls|
  {
    t.(polls := t.polls[..k])
  }

  lemma UpToBefore(t: Trace, k: nat)
    requires 0 < k <= |t.polls|
    ensures UpTo(t, k).Before() == UpTo(t, k - 1)
  {
    assert t.polls[..k][..k - 1] == t.polls[..k - 1];
  }

  function StateAfter(cfg: Settings, t: Trace, k: nat): State
    requires k <= |t.polls|
  {
    UpTo(t, k).After(cfg).state
  }

  /** No endpoint returns to unknown. */
  lemma {:induction false} NeverUnknownAgain(cfg: Settings, t: Trace, i: nat, j: nat)
    requires i <= j <= |t.polls| && !StateAfter(cfg, t, i).Unknown?
    ensures !StateAfter(cfg, t, j).Unknown?
    decreases j
  {
    if i < j {
      NeverUnknownAgain(cfg, t, i, j - 1);
      UpToBefore(t, j);
    }
  }

  /** A success that is not stale, at the end of a full success run. */
  predicate Earns(cfg: Settings, t: Trace, n: nat)
    requires 0 < n <= |t.polls|
  {
    UpTo(t, n).Evidence().Some? && !Stale(cfg, UpTo(t, n)) && UpTo(t, n).TrailingSuccesses() >= cfg.upAfter
  }

  /** Poll `a` is a stale success, `b` a rise, and no failure run between them reaches its threshold. */
  ghost predicate Slips(cfg: Settings, t: Trace, a: nat, b: nat)
    requires 0 < a < b <= |t.polls|
  {
    && Stale(cfg, UpTo(t, a)) && Rises(UpTo(t, b))
    && forall m :: a < m < b ==> UpTo(t, m).TrailingFailures() < cfg.downAfter
  }

  ghost predicate UpWithin(cfg: Settings, t: Trace, i: nat, j: nat)
    requires j <= |t.polls|
  {
    exists n: nat :: i < n <= j && StateAfter(cfg, t, n).Up?
  }

  /** One poll, by its place in the trace. */
  lemma StepFrom(cfg: Settings, t: Trace, n: nat)
    requires 0 < n <= |t.polls|
    ensures match StateAfter(cfg, t, n - 1)
            case Down => StateAfter(cfg, t, n).Stalled? <==> Stale(cfg, UpTo(t, n))
            case Stalled =>
              && StateAfter(cfg, t, n) == (if Rises(UpTo(t, n)) then Up
                                           else if UpTo(t, n).TrailingFailures() >= cfg.downAfter then Down
                                           else Stalled)
              && (UpTo(t, n).Evidence().Some? && !Rises(UpTo(t, n)) ==> Stale(cfg, UpTo(t, n)))
            case _ => true
  {
    UpToBefore(t, n);
    hide Stale, Rises;
    if StateAfter(cfg, t, n - 1).Down? {
      FromDown(cfg, UpTo(t, n));
    } else if StateAfter(cfg, t, n - 1).Stalled? {
      FromStalled(cfg, UpTo(t, n));
    }
  }

  /** While it is not up, an endpoint that is stalled got there by a stale success and has not failed enough since. */
  lemma {:induction false} StalledSince(cfg: Settings, t: Trace, i: nat, n: nat) returns (a: nat)
    requires i <= n <= |t.polls| && StateAfter(cfg, t, i).Down? && StateAfter(cfg, t, n).Stalled?
    requires !UpWithin(cfg, t, i, n)
    ensures i < a <= n && Stale(cfg, UpTo(t, a))
    ensures forall m :: a < m <= n ==> UpTo(t, m).TrailingFailures() < cfg.downAfter
    decreases n
  {
    hide Stale, Rises, StateAfter;
    StepFrom(cfg, t, n);
    NeverUnknownAgain(cfg, t, i, n - 1);
    assert n - 1 == i || !StateAfter(cfg, t, n - 1).Up?;
    if StateAfter(cfg, t, n - 1).Down? {
      a := n;
    } else {
      a := StalledSince(cfg, t, i, n - 1);
    }
  }

  /** After a stale success an endpoint stays stalled until it is up, unless enough polls fail. */
  lemma {:induction false} StalledUntil(cfg: Settings, t: Trace, a: nat, n: nat)
    requires 0 < a <= n <= |t.polls| && Stale(cfg, UpTo(t, a))
    requires forall m :: a < m <= n ==> UpTo(t, m).TrailingFailures() < cfg.downAfter
    ensures UpWithin(cfg, t, a, n) || StateAfter(cfg, t, n).Stalled?
    decreases n
  {
    UpToBefore(t, n);
    if n == a {
      StaleStalls(cfg, UpTo(t, a));
    } else {
      StalledUntil(cfg, t, a, n - 1);
      if !UpWithin(cfg, t, a, n - 1) {
        FromStalled(cfg, UpTo(t, n));
        assert StateAfter(cfg, t, n).Up? || StateAfter(cfg, t, n).Stalled?;
      }
    }
  }

  lemma StaleStalls(cfg: Settings, t: Trace)
    requires t.polls != [] && Stale(cfg, t)
    ensures t.After(cfg).state.Stalled?
  {
    RecordCounts(cfg, t.Before());
    RecordCounts(cfg, t);
  }

  /** What brings an endpoint up at `j` that was down at `i` and not up in between. */
  lemma UpNow(cfg: Settings, t: Trace, i: nat, j: nat) returns (a: nat)
    requires i < j <= |t.polls| && StateAfter(cfg, t, i).Down? && StateAfter(cfg, t, j).Up?
    requires !UpWithin(cfg, t, i, j - 1)
    ensures Earns(cfg, t, j) || (i < a < j && Slips(cfg, t, a, j))
  {
    hide Stale, Rises, StateAfter, UpTo;
    a := j;
    NeverUnknownAgain(cfg, t, i, j - 1);
    assert j - 1 == i || !StateAfter(cfg, t, j - 1).Up?;
    if StateAfter(cfg, t, j - 1).Down? {
      EarnsNow(cfg, t, j);
    } else {
      StepFrom(cfg, t, j);
      a := StalledSince(cfg, t, i, j - 1);
    }
  }

  lemma EarnsNow(cfg: Settings, t: Trace, j: nat)
    requires 0 < j <= |t.polls| && StateAfter(cfg, t, j - 1).Down? && StateAfter(cfg, t, j).Up?
    ensures Earns(cfg, t, j)
  {
    hide Stale;
    UpToBefore(t, j);
    UpFromDownExactlyAtThreshold(cfg, UpTo(t, j));
  }

  /** The first time up after a time down was earned, or came with a rise after a stale success. */
  lemma {:induction false} FirstUp(cfg: Settings, t: Trace, i: nat, j: nat)
    requires i <= j <= |t.polls| && StateAfter(cfg, t, i).Down? && UpWithin(cfg, t, i, j)
    ensures (exists n: nat :: i < n <= j && Earns(cfg, t, n)) ||
            (exists a: nat, b: nat :: i < a < b <= j && Slips(cfg, t, a, b))
    decreases j
  {
    hide StateAfter, Earns, Slips;
    if UpWithin(cfg, t, i, j - 1) {
      FirstUp(cfg, t, i, j - 1);
    } else {
      assert StateAfter(cfg, t, j).Up?;
      var a := UpNow(cfg, t, i, j);
    }
  }

  lemma EarnedIsUp(cfg: Settings, t: Trace, i: nat, n: nat)
    requires i < n <= |t.polls| && StateAfter(cfg, t, i).Down? && Earns(cfg, t, n)
    ensures UpWithin(cfg, t, i, n)
  {
    UpToBefore(t, n);
    NeverUnknownAgain(cfg, t, i, n - 1);
    if StateAfter(cfg, t, n - 1).Down? {
      StateMeaning(cfg, UpTo(t, n - 1));
      UpFromDownExactlyAtThreshold(cfg, UpTo(t, n));
      assert StateAfter(cfg, t, n).Up?;
    } else if StateAfter(cfg, t, n - 1).Stalled? {
      FromStalled(cfg, UpTo(t, n));
      assert StateAfter(cfg, t, n).Up?;
    } else {
      assert StateAfter(cfg, t, n - 1).Up?;
    }
  }

  lemma SlipIsUp(cfg: Settings, t: Trace, a: nat, b: nat)
    requires 0 < a < b <= |t.polls| && Slips(cfg, t, a, b)
    ensures UpWithin(cfg, t, a, b)
  {
    StalledUntil(cfg, t, a, b - 1);
    if StateAfter(cfg, t, b - 1).Stalled? {
      UpToBefore(t, b);
      FromStalled(cfg, UpTo(t, b));
      assert StateAfter(cfg, t, b).Up?;
    }
  }

  /** An endpoint that is down comes up again exactly if it earns it, or if its height rises after a stale success with
      too few failures in between. */
  lemma RecoversIff(cfg: Settings, t: Trace, i: nat, j: nat)
    requires i <= j <= |t.polls| && StateAfter(cfg, t, i).Down?
    ensures UpWithin(cfg, t, i, j) <==>
              || (exists n: nat :: i < n <= j && Earns(cfg, t, n))
              || (exists a: nat, b: nat :: i < a < b <= j && Slips(cfg, t, a, b))
  {
    hide Earns, Slips, StateAfter;
    if UpWithin(cfg, t, i, j) {
      FirstUp(cfg, t, i, j);
    }
    forall n: nat | i < n <= j && Earns(cfg, t, n) ensures UpWithin(cfg, t, i, j) {
      EarnedIsUp(cfg, t, i, n);
    }
    forall a: nat, b: nat | i < a < b <= j && Slips(cfg, t, a, b) ensures UpWithin(cfg, t, i, j) {
      SlipIsUp(cfg, t, a, b);
    }
  }

  /** Where no success run reaches its threshold, exactly a rise after a stale success brings an endpoint up again. */
  lemma ShortRecoveryIff(cfg: Settings, t: Trace, i: nat, j: nat)
    requires i <= j <= |t.polls| && StateAfter(cfg, t, i).Down?
    requires forall n :: i < n <= j ==> UpTo(t, n).TrailingSuccesses() < cfg.upAfter
    ensures UpWithin(cfg, t, i, j) <==> exists a: nat, b: nat :: i < a < b <= j && Slips(cfg, t, a, b)
  {
    RecoversIff(cfg, t, i, j);
    assert forall n: nat :: i < n <= j ==> !Earns(cfg, t, n);
  }

  /** Without a rise after a stale success, an endpoint that was down is up again only after a full success run. */
  lemma RecoveryNeedsFullRun(cfg: Settings, t: Trace, i: nat, j: nat) returns (k: nat)
    requires i < j <= |t.polls|
    requires StateAfter(cfg, t, i).Down? && StateAfter(cfg, t, j).Up?
    requires forall a: nat, b: nat :: i < a < b <= j ==> !Slips(cfg, t, a, b)
    ensures i < k <= j && UpTo(t, k).TrailingSuccesses() >= cfg.upAfter
  {
    RecoversIff(cfg, t, i, j);
    k :| i < k <= j && Earns(cfg, t, k);
  }

  function Seen(height: nat, wait: nat): Poll {
    Poll(Reply(Some(height), None, None, Some(false), Some(0), Some(0)), wait, 0)
  }

  /** A stall on the way is enough to recover early: up again after two successes where three are asked for. */
  lemma StallShortensRecovery() returns (cfg: Settings, t: Trace)
    ensures |t.polls| == 4 && cfg.upAfter == 3
    ensures StateAfter(cfg, t, 2).Down? && StateAfter(cfg, t, 3).Stalled? && StateAfter(cfg, t, 4).Up?
    ensures UpTo(t, 4).TrailingSuccesses() == 2
  {
    cfg := Settings(10, 5, 1, 3, 300, 300, 60, 8);
    var failed := Poll(Reply(None, None, None, None, None, None), 1, 0);
    t := Trace("rpc", 0, None, [Seen(7, 1), failed, Seen(7, 1000), Seen(8, 1)]);
    assert UpTo(t, 0).After(cfg) == MakeRecord("rpc", 0);
    var first := UpTo(t, 1);
    UpToBefore(t, 1);
    assert first.After(cfg).state.Up? && first.After(cfg).lastHeightChangeAt == 1;
    UpToBefore(t, 2);
    assert UpTo(t, 2).After(cfg).state.Down? && UpTo(t, 2).TrailingSuccesses() == 0;
    UpToBefore(t, 3);
    assert UpTo(t, 3).After(cfg).state.Stalled? && UpTo(t, 3).TrailingSuccesses() == 1;
    UpToBefore(t, 4);
  }
}
