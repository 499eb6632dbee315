/**
 One IPFS request over a list of gateways: how the time budget is split into
 attempt windows, which failure is reported, and when the client is told to
 come back. Fetches, clocks and the client's disconnection are the environment.
 */
module GatewayFallback {
  import opened Options

  const MIN_ATTEMPT_MS := 1000

  // ---------- Failures ----------

  datatype Failure = Failure(status: nat, upstream: Option<nat>)

  const COOLING_DOWN := Failure(503, None)
  const TIMED_OUT := Failure(504, None)

  function Priority(f: Failure): nat {
    if f.status == 504 then 4
    else if f.upstream.Some? && f.upstream.value >= 500 then 3
    else if f.status == 503 then 0
    else if f.upstream == Some(429) then 1
    else 2
  }

  function Prefer(current: Failure, next: Failure): Failure {
    if Priority(next) > Priority(current) then next else current
  }

  function Preferred(fs: seq<Failure>): Failure {
    if fs == [] then COOLING_DOWN else Prefer(Preferred(fs[..|fs| - 1]), fs[|fs| - 1])
  }

  /** The fold reports the earliest failure of maximal priority. */
  lemma {:induction false} PreferredIsEarliestBest(fs: seq<Failure>) returns (i: nat)
    requires fs != [] && forall f :: f in fs ==> Priority(f) > 0
    ensures i < |fs| && Preferred(fs) == fs[i]
    ensures forall j :: 0 <= j < |fs| ==> Priority(fs[j]) <= Priority(fs[i])
    ensures forall j :: 0 <= j < i ==> Priority(fs[j]) < Priority(fs[i])
  {
    var k := |fs| - 1;
    i := k;
    if k > 0 {
      var best := PreferredIsEarliestBest(fs[..k]);
      if Priority(fs[k]) <= Priority(fs[best]) {
        i := best;
      }
    }
  }

  // ---------- Retry-After of a busy answer ----------

  function Earliest(cooldowns: seq<nat>): (t: nat)
    requires cooldowns != []
    ensures t in cooldowns && forall c :: c in cooldowns ==> t <= c
  {
    if |cooldowns| == 1 then cooldowns[0]
    else
      var rest := Earliest(cooldowns[1..]);
      assert cooldowns == [cooldowns[0]] + cooldowns[1..];
      Min(cooldowns[0], rest)
  }

  function CeilSeconds(ms: int): int {
    -((-ms) / 1000)
  }

  function RetryAfterSeconds(cooldowns: seq<nat>, now: nat): (s: int)
    requires cooldowns != []
  {
    Max(1, CeilSeconds(Earliest(cooldowns) - now))
  }

  /** The client is told to wait until some gateway has cooled down, and not a whole second longer. */
  lemma RetryAfterIsTight(cooldowns: seq<nat>, now: nat)
    requires cooldowns != []
    ensures var s := RetryAfterSeconds(cooldowns, now);
            && (exists c :: c in cooldowns && c <= now + s * 1000)
            && (s > 1 ==> forall c :: c in cooldowns ==> c > now + (s - 1) * 1000)
  {
    var s := RetryAfterSeconds(cooldowns, now);
    assert Earliest(cooldowns) in cooldowns && Earliest(cooldowns) <= now + s * 1000;
  }

  // ---------- Attempts ----------

  /** How an attempt ended: content delivered, a non-2xx status, or an error thrown before or while streaming. */
  datatype Outcome = Delivered | Upstream(status: nat) | Broken(timedOut: bool, streaming: bool)

  /** How many of these gateways are not cooling down. */
  function CountReady(cooldowns: seq<nat>, wall: nat): (n: nat) {
    if cooldowns == [] then 0
    else CountReady(cooldowns[..|cooldowns| - 1], wall) + if cooldowns[|cooldowns| - 1] <= wall then 1 else 0
  }

  /**
   One turn of the gateway loop, as the environment drives it: the request's clock when it starts, the wall clock,
   what this gateway's cooldown and those of the gateways after it are by then, and how the fetch would end.
   */
  datatype Visit =
    Visit(at: nat, gone: bool, wall: nat, cooldown: nat, rest: seq<nat>, outcome: Outcome, goneAfter: bool)
  {
    predicate Eligible() {
      cooldown <= wall
    }

    function Later(): nat {
      CountReady(rest, wall)
    }
  }

  /** The clocks, the client and the gateways' cooldowns when the loop is over. */
  datatype End = End(at: nat, gone: bool, wall: nat, cooldowns: seq<nat>)

  /** `retryAfter` is the delay announced with a 503, in seconds. */
  datatype Reply = Silent | Served | Truncated | Error(failure: Failure, retryAfter: Option<int>)

  function FailureOf(o: Outcome): Failure
    requires !o.Delivered?
  {
    match o
    case Upstream(status) => Failure(if status == 404 then 404 else 502, Some(status))
    case Broken(timedOut, _) => Failure(if timedOut then 504 else 502, None)
  }

  predicate MovesOn(o: Outcome) {
    (o.Upstream? && (o.status == 429 || 500 <= o.status < 600)) || (o.Broken? && !o.streaming)
  }

  /** The loop goes on to the next gateway. */
  predicate Passes(v: Visit, deadline: nat) {
    && !v.gone
    && v.at < deadline
    && (v.Eligible() ==> MovesOn(v.outcome) && !(v.outcome.Broken? && v.goneAfter))
  }

  /** Where the loop stops: the first visit that does not pass. */
  function StopsAt(visits: seq<Visit>, deadline: nat): (n: nat)
    ensures n <= |visits|
    ensures forall i :: 0 <= i < n ==> Passes(visits[i], deadline)
    ensures n < |visits| ==> !Passes(visits[n], deadline)
  {
    if visits == [] || !Passes(visits[0], deadline) then 0 else 1 + StopsAt(visits[1..], deadline)
  }

  /** The failures of the gateways that were tried and passed over. */
  function Failures(visits: seq<Visit>, deadline: nat): (fs: seq<Failure>)
    requires forall v :: v in visits ==> Passes(v, deadline)
    ensures forall f :: f in fs ==> Priority(f) > 0
  {
    if visits == [] then []
    else
      var last := visits[|visits| - 1];
      assert Passes(last, deadline);
      Failures(visits[..|visits| - 1], deadline) + if last.Eligible() then [FailureOf(last.outcome)] else []
  }

  function Conclude(f: Failure, end: End, deadline: nat): Reply
    requires end.cooldowns != []
  {
    if end.gone then Silent
    else
      var failure := if end.at >= deadline then TIMED_OUT else f;
      Error(failure, if failure.status == 503 then Some(RetryAfterSeconds(end.cooldowns, end.wall)) else None)
  }

  /** The reply, read off the first visit that stops the loop and the failures before it. */
  function Answer(visits: seq<Visit>, end: End, deadline: nat): Reply
    requires end.cooldowns != []
  {
    var n := StopsAt(visits, deadline);
    if n == |visits| then Conclude(Preferred(Failures(visits, deadline)), end, deadline)
    else
      var v := visits[n];
      if v.gone then Silent
      else if v.at >= deadline then Conclude(TIMED_OUT, end, deadline)
      else if v.outcome.Delivered? then Served
      else if v.outcome.Upstream? then Conclude(FailureOf(v.outcome), end, deadline)
      else if v.goneAfter then Silent
      else Truncated
  }

  function Window(remaining: int, later: nat, reserve: nat): int {
    Min(remaining, Max(MIN_ATTEMPT_MS, remaining - later * reserve))
  }

  /** Whether a visit starts a fetch. */
  predicate Attempted(v: Visit, deadline: nat) {
    !v.gone && v.at < deadline && v.Eligible()
  }

  function WindowsOf(visits: seq<Visit>, deadline: nat, reserve: nat): seq<int> {
    if visits == [] then []
    else
      var last := visits[|visits| - 1];
      WindowsOf(visits[..|visits| - 1], deadline, reserve) +
      if Attempted(last, deadline) then [Window(deadline - last.at, last.Later(), reserve)] else []
  }

  /** An attempt gets the longest window within the deadline that leaves every later gateway its reserve, or the minimum
      where they cannot all have it. */
  lemma WindowIsLongest(remaining: int, later: nat, reserve: nat, w: int)
    ensures w <= Window(remaining, later, reserve) <==>
              w <= remaining && (w <= MIN_ATTEMPT_MS || w + later * reserve <= remaining)
  {
  }

  lemma {:induction false} StopsHere(visits: seq<Visit>, deadline: nat, i: nat)
    requires i <= |visits| && forall j :: 0 <= j < i ==> Passes(visits[j], deadline)
    requires i == |visits| || !Passes(visits[i], deadline)
    ensures StopsAt(visits, deadline) == i
  {
  }

  /** What one more passed visit adds. */
  lemma PassedOne(visits: seq<Visit>, deadline: nat, reserve: nat, i: nat)
    requires i < |visits|
    requires forall v :: v in visits[..i] ==> Passes(v, deadline)
    requires Passes(visits[i], deadline)
    ensures forall v :: v in visits[..i + 1] ==> Passes(v, deadline)
    ensures var v := visits[i];
            Preferred(Failures(visits[..i + 1], deadline)) ==
            if v.Eligible() then Prefer(Preferred(Failures(visits[..i], deadline)), FailureOf(v.outcome))
            else Preferred(Failures(visits[..i], deadline))
  {
    assert visits[..i + 1] == visits[..i] + [visits[i]];
    assert visits[..i + 1][..i] == visits[..i];
    var fs := Failures(visits[..i], deadline);
    if visits[i].Eligible() {
      assert (fs + [FailureOf(visits[i].outcome)])[..|fs|] == fs;
    } else {
      assert fs + [] == fs;
    }
  }

  lemma WindowsNext(visits: seq<Visit>, deadline: nat, reserve: nat, i: nat)
    requires i < |visits|
    ensures var v := visits[i];
            WindowsOf(visits[..i + 1], deadline, reserve) ==
            WindowsOf(visits[..i], deadline, reserve) +
            if Attempted(v, deadline) then [Window(deadline - v.at, v.Later(), reserve)] else []
  {
    assert visits[..i + 1][..i] == visits[..i];
  }

  /** What one turn of the loop does: go on with this failure, or stop with this reply. */
  datatype Turn = GoOn(failure: Failure) | Stop(reply: Reply)

  function TakeTurn(failure: Failure, v: Visit, end: End, deadline: nat): Turn
    requires end.cooldowns != []
  {
    if v.gone then Stop(Silent)
    else if v.at >= deadline then Stop(Conclude(TIMED_OUT, end, deadline))
    else if !v.Eligible() then GoOn(failure)
    else
      match v.outcome
      case Delivered => Stop(Served)
      case Upstream(_) =>
        if MovesOn(v.outcome) then GoOn(Prefer(failure, FailureOf(v.outcome)))
        else Stop(Conclude(FailureOf(v.outcome), end, deadline))
      case Broken(_, streaming) =>
        if v.goneAfter then Stop(Silent)
        else if streaming then Stop(Truncated)
        else GoOn(Prefer(failure, FailureOf(v.outcome)))
  }

  lemma TurnAnswers(visits: seq<Visit>, end: End, deadline: nat, i: nat, failure: Failure)
    requires end.cooldowns != []
    requires i < |visits| && forall j :: 0 <= j < i ==> Passes(visits[j], deadline)
    ensures var t := TakeTurn(failure, visits[i], end, deadline);
            && (t.GoOn? <==> Passes(visits[i], deadline))
            && (t.Stop? ==> StopsAt(visits, deadline) == i && t.reply == Answer(visits, end, deadline))
  {
    if !Passes(visits[i], deadline) {
      StopsHere(visits, deadline, i);
    }
  }

  /** The later gateways that could still be tried. */
  method CountLater(cooldowns: seq<nat>, wall: nat) returns (n: nat)
    ensures n == CountReady(cooldowns, wall)
  {
    n := 0;
    for i := 0 to |cooldowns|
      invariant n == CountReady(cooldowns[..i], wall)
    {
      assert cooldowns[..i + 1][..i] == cooldowns[..i];
      if cooldowns[i] <= wall {
        n := n + 1;
      }
    }
    assert cooldowns[..|cooldowns|] == cooldowns;
  }

  /** One gateway's turn; the window is the timer armed for its fetch, if one was started. */
  method Visits(failure: Failure, v: Visit, end: End, deadline: nat, reserve: nat)
    returns (turn: Turn, window: Option<int>)
    requires end.cooldowns != []
    ensures turn == TakeTurn(failure, v, end, deadline)
    ensures window == if Attempted(v, deadline) then Some(Window(deadline - v.at, v.Later(), reserve)) else None
  {
    window := None;
    if v.gone {
      return Stop(Silent), None;
    }
    var remaining := deadline - v.at;
    if remaining <= 0 {
      turn := Stop(Conclude(TIMED_OUT, end, deadline));
      return;
    }
    if !v.Eligible() {
      return GoOn(failure), None;
    }
    var later := CountLater(v.rest, v.wall);
    window := Some(Min(remaining, Max(MIN_ATTEMPT_MS, remaining - later * reserve)));
    match v.outcome {
      case Delivered =>
        turn := Stop(Served);
      case Upstream(status) =>
        var upstreamFailure := Failure(if status == 404 then 404 else 502, Some(status));
        if status == 429 || 500 <= status < 600 {
          turn := GoOn(Prefer(failure, upstreamFailure));
        } else {
          turn := Stop(Conclude(upstreamFailure, end, deadline));
        }
      case Broken(timedOut, streaming) =>
        if v.goneAfter {
          turn := Stop(Silent);
        } else if streaming {
          turn := Stop(Truncated);
        } else {
          turn := GoOn(Prefer(failure, Failure(if timedOut then 504 else 502, None)));
        }
    }
  }

  /** The gateway loop: the reply it gives and the attempt timers it arms. */
  method Fetch(visits: seq<Visit>, end: End, deadline: nat, reserve: nat) returns (reply: Reply, windows: seq<int>)
    requires end.cooldowns != []
    ensures reply == Answer(visits, end, deadline)
    ensures windows == WindowsOf(visits[..Min(|visits|, StopsAt(visits, deadline) + 1)], deadline, reserve)
  {
    hide Preferred, Failures, WindowsOf, TakeTurn, Answer, Passes;
    EmptyRun(deadline, reserve);
    assert visits[..0] == [];
    var failure := COOLING_DOWN;
    windows := [];
    var i := 0;
    while i < |visits|
      invariant i <= |visits|
      invariant forall j :: 0 <= j < i ==> Passes(visits[j], deadline)
      invariant forall v :: v in visits[..i] ==> Passes(v, deadline)
      invariant failure == Preferred(Failures(visits[..i], deadline))
      invariant windows == WindowsOf(visits[..i], deadline, reserve)
    {
      var turn, window := Visits(failure, visits[i], end, deadline, reserve);
      TurnAnswers(visits, end, deadline, i, failure);
      WindowsNext(visits, deadline, reserve, i);
      if window.Some? {
        windows := windows + [window.value];
      }
      if turn.Stop? {
        return turn.reply, windows;
      }
      PassedOne(visits, deadline, reserve, i);
      TurnPrefers(failure, visits[i], end, deadline);
      failure := turn.failure;
      i := i + 1;
    }
    assert visits[..i] == visits;
    AllPassed(visits, end, deadline);
    reply := Conclude(failure, end, deadline);
  }

  lemma EmptyRun(deadline: nat, reserve: nat)
    ensures Preferred(Failures([], deadline)) == COOLING_DOWN && WindowsOf([], deadline, reserve) == []
  {
  }

  lemma TurnPrefers(failure: Failure, v: Visit, end: End, deadline: nat)
    requires Passes(v, deadline) && end.cooldowns != []
    ensures TakeTurn(failure, v, end, deadline)
        == GoOn(if v.Eligible() then Prefer(failure, FailureOf(v.outcome)) else failure)
  {
  }

  lemma AllPassed(visits: seq<Visit>, end: End, deadline: nat)
    requires end.cooldowns != [] && forall v :: v in visits ==> Passes(v, deadline)
    ensures StopsAt(visits, deadline) == |visits|
    ensures Answer(visits, end, deadline) == Conclude(Preferred(Failures(visits, deadline)), end, deadline)
  {
    StopsHere(visits, deadline, |visits|);
  }

  // ---------- Which failure the client is told ----------

  predicate TimedOut(v: Visit) {
    v.Eligible() && v.outcome.Broken? && v.outcome.timedOut
  }

  predicate ServerFailed(v: Visit) {
    v.Eligible() && v.outcome.Upstream? && v.outcome.status >= 500
  }

  predicate Unreached(v: Visit) {
    v.Eligible() && v.outcome.Broken? && !v.outcome.timedOut
  }

  predicate Throttled(v: Visit) {
    v.Eligible() && v.outcome.Upstream? && v.outcome.status == 429
  }

  ghost predicate Among(visits: seq<Visit>, p: Visit -> bool) {
    exists v :: v in visits && p(v)
  }

  /** The status a client is given when no gateway delivered: a timeout beats a server error, of which the first is
      named, that beats an unreachable gateway, that a throttling one, and 503 is left for gateways all at rest. */
  ghost predicate TellsWorst(visits: seq<Visit>, f: Failure) {
    if Among(visits, TimedOut) then f == Failure(504, None)
    else if Among(visits, ServerFailed) then
      exists i :: && 0 <= i < |visits| && ServerFailed(visits[i]) && f == Failure(502, Some(visits[i].outcome.status))
                  && forall j :: 0 <= j < i ==> !ServerFailed(visits[j])
    else if Among(visits, Unreached) then f == Failure(502, None)
    else if Among(visits, Throttled) then f == Failure(502, Some(429))
    else f == Failure(503, None)
  }

  lemma AmongSnoc(visits: seq<Visit>, v: Visit, p: Visit -> bool)
    ensures Among(visits + [v], p) <==> Among(visits, p) || p(v)
  {
    if Among(visits, p) {
      var x :| x in visits && p(x);
      assert x in visits + [v];
    }
    assert v in visits + [v];
  }

  /** Where one more gateway was passed over, the worst so far is the worse of the two. */
  lemma WorstSnoc(visits: seq<Visit>, v: Visit, f: Failure, deadline: nat)
    requires TellsWorst(visits, f) && Passes(v, deadline)
    ensures TellsWorst(visits + [v], if v.Eligible() then Prefer(f, FailureOf(v.outcome)) else f)
  {
    hide Among;
    AmongSnoc(visits, v, TimedOut);
    AmongSnoc(visits, v, ServerFailed);
    AmongSnoc(visits, v, Unreached);
    AmongSnoc(visits, v, Throttled);
    var longer := visits + [v];
    assert longer[|visits|] == v;
    if Among(visits, ServerFailed) && !Among(visits, TimedOut) {
      var i :| 0 <= i < |visits| && ServerFailed(visits[i]) && f == Failure(502, Some(visits[i].outcome.status))
               && forall j :: 0 <= j < i ==> !ServerFailed(visits[j]);
      assert longer[i] == visits[i] && forall j :: 0 <= j < i ==> longer[j] == visits[j];
    } else if !Among(visits, ServerFailed) && ServerFailed(v) {
      forall j | 0 <= j < |visits| ensures !ServerFailed(longer[j]) {
        NoneAmong(visits, ServerFailed, j);
      }
    }
  }

  lemma NoneAmong(visits: seq<Visit>, p: Visit -> bool, j: nat)
    requires j < |visits| && !Among(visits, p)
    ensures !p(visits[j])
  {
    assert visits[j] in visits;
  }

  lemma {:induction false} PassedTellWorst(visits: seq<Visit>, deadline: nat)
    requires forall v :: v in visits ==> Passes(v, deadline)
    ensures TellsWorst(visits, Preferred(Failures(visits, deadline)))
  {
    if visits != [] {
      var k := |visits| - 1;
      assert visits == visits[..k] + [visits[k]];
      PassedTellWorst(visits[..k], deadline);
      hide TellsWorst, Preferred, Failures;
      assert visits[..k + 1] == visits;
      PassedOne(visits, deadline, 0, k);
      WorstSnoc(visits[..k], visits[k], Preferred(Failures(visits[..k], deadline)), deadline);
    }
  }

  /** What the client gets: nothing if it left; the content, or a cut-off stream, from the first gateway that gave
      either; a timeout if the deadline passed first; the first answer that is neither a throttling nor a server error,
      as 404 or 502; or else, when every gateway failed in a way worth going on or was at rest, the worst of those
      failures. */
  lemma ReplyTellsWorst(visits: seq<Visit>, end: End, deadline: nat)
    requires end.cooldowns != []
    ensures var n, r := StopsAt(visits, deadline), Answer(visits, end, deadline);
            var stopped := n < |visits|;
            var inTime := stopped && visits[n].at < deadline;
            if stopped && visits[n].gone then r == Silent
            else if inTime && visits[n].outcome.Delivered? then r == Served
            else if inTime && visits[n].outcome.Broken? then
              if visits[n].goneAfter then r == Silent else visits[n].outcome.streaming && r == Truncated
            else if end.gone then r == Silent
            else if end.at >= deadline || (stopped && !inTime) then r == Error(Failure(504, None), None)
            else if !stopped then r.Error? && TellsWorst(visits, r.failure)
            else
              var status := visits[n].outcome.status;
              && status != 429 && !(500 <= status < 600)
              && r == Error(Failure(if status == 404 then 404 else 502, Some(status)), None)
    ensures forall i :: 0 <= i < StopsAt(visits, deadline) && visits[i].Eligible() ==>
              var o := visits[i].outcome;
              o.Broken? || (o.Upstream? && (o.status == 429 || 500 <= o.status < 600))
  {
    if StopsAt(visits, deadline) == |visits| {
      forall v | v in visits ensures Passes(v, deadline) {
        var i :| 0 <= i < |visits| && visits[i] == v;
      }
      PassedTellWorst(visits, deadline);
    }
    hide TellsWorst, Preferred, Failures;
  }

  /** 503, with its delay, is the answer exactly when every gateway was skipped, in time, for a client still there. */
  lemma BusyIffAllSkipped(visits: seq<Visit>, end: End, deadline: nat)
    requires end.cooldowns != []
    ensures var r := Answer(visits, end, deadline);
            r.Error? && r.failure.status == 503 <==>
              && (forall v :: v in visits ==> !v.gone && v.at < deadline && !v.Eligible())
              && !end.gone && end.at < deadline
    ensures var r := Answer(visits, end, deadline);
            r.Error? ==> (r.failure.status == 503 <==> r.retryAfter == Some(RetryAfterSeconds(end.cooldowns, end.wall)))
  {
    var n := StopsAt(visits, deadline);
    if n == |visits| {
      var fs := Failures(visits, deadline);
      NoFailureIffSkipped(visits, deadline);
      if fs != [] {
        var i := PreferredIsEarliestBest(fs);
        FailureStatuses(visits, deadline);
      }
    } else {
      assert visits[n] in visits;
    }
  }

  lemma {:induction false} NoFailureIffSkipped(visits: seq<Visit>, deadline: nat)
    requires forall v :: v in visits ==> Passes(v, deadline)
    ensures Failures(visits, deadline) == [] <==> forall v :: v in visits ==> !v.Eligible()
  {
    if visits != [] {
      var init, last := visits[..|visits| - 1], visits[|visits| - 1];
      assert visits == init + [last];
      NoFailureIffSkipped(init, deadline);
    }
  }

  lemma {:induction false} FailureStatuses(visits: seq<Visit>, deadline: nat)
    requires forall v :: v in visits ==> Passes(v, deadline)
    ensures forall f :: f in Failures(visits, deadline) ==> f.status in {404, 502, 504}
  {
    if visits != [] {
      FailureStatuses(visits[..|visits| - 1], deadline);
    }
  }

  // ---------- Attempt windows ----------

  function Sum(ws: seq<int>): int {
    if ws == [] then 0 else Sum(ws[..|ws| - 1]) + ws[|ws| - 1]
  }

  /** Every attempt but the last ran its window out before the next visit started. */
  ghost predicate RanOut(visits: seq<Visit>, deadline: nat, reserve: nat) {
    && (forall i :: 0 <= i < |visits| ==> visits[i].at < deadline)
    && (forall i :: 0 <= i < |visits| - 1 ==>
          visits[i + 1].at >= visits[i].at +
            if Attempted(visits[i], deadline) then Window(deadline - visits[i].at, visits[i].Later(), reserve) else 0)
  }

  lemma WindowFits(remaining: int, later: nat, reserve: nat)
    ensures Window(remaining, later, reserve) <= remaining
  {
  }

  /** The windows of successive attempts that ran out never sum past the deadline. */
  lemma {:induction false} WindowsFitDeadline(visits: seq<Visit>, deadline: nat, reserve: nat)
    requires RanOut(visits, deadline, reserve) && visits != []
    ensures var last := visits[|visits| - 1];
            && Sum(WindowsOf(visits[..|visits| - 1], deadline, reserve)) <= last.at - visits[0].at
            && Sum(WindowsOf(visits, deadline, reserve)) <= deadline - visits[0].at
  {
    hide Window, Visit.Later, Sum, Attempted;
    var init, last := visits[..|visits| - 1], visits[|visits| - 1];
    var w := Window(deadline - last.at, last.Later(), reserve);
    if init != [] {
      assert forall i :: 0 <= i < |init| ==> init[i] == visits[i];
      WindowsFitDeadline(init, deadline, reserve);
      var prior := init[|init| - 1];
      SumSnoc(WindowsOf(init[..|init| - 1], deadline, reserve), Window(deadline - prior.at, prior.Later(), reserve));
    }
    SumSnoc(WindowsOf(init, deadline, reserve), w);
    WindowFits(deadline - last.at, last.Later(), reserve);
  }

  lemma SumSnoc(ws: seq<int>, w: int)
    ensures Sum(ws + [w]) == Sum(ws) + w && Sum(ws + []) == Sum(ws) && Sum([]) == 0
  {
    assert (ws + [w])[..|ws|] == ws && ws + [] == ws;
  }

  /** The windows of `|tooks|` eligible gateways tried in turn, each attempt taking the given time. */
  function Windows(budget: int, reserve: nat, tooks: seq<int>): seq<int>
    decreases |tooks|
  {
    if tooks == [] || budget <= 0 then []
    else [Window(budget, |tooks| - 1, reserve)] + Windows(budget - tooks[0], reserve, tooks[1..])
  }

  /** No attempt outlasts its window. */
  ghost predicate Prompt(budget: int, reserve: nat, tooks: seq<int>)
    decreases |tooks|
  {
    tooks != [] && budget > 0 ==>
      && 0 <= tooks[0] <= Window(budget, |tooks| - 1, reserve)
      && Prompt(budget - tooks[0], reserve, tooks[1..])
  }

  /** Every one of `k` eligible gateways is tried for at least the minimum. */
  ghost predicate AllGetMinimum(budget: int, reserve: nat, tooks: seq<int>) {
    var ws := Windows(budget, reserve, tooks);
    |ws| == |tooks| && forall i :: 0 <= i < |ws| ==> ws[i] >= MIN_ATTEMPT_MS
  }

  predicate Ample(budget: int, reserve: nat, k: nat) {
    k == 0 || (budget >= k * MIN_ATTEMPT_MS && (k == 1 || reserve >= MIN_ATTEMPT_MS))
  }

  lemma AmpleWindow(budget: int, reserve: nat, k: nat)
    requires k > 0 && Ample(budget, reserve, k)
    ensures budget >= Window(budget, k - 1, reserve) >= MIN_ATTEMPT_MS
  {
  }

  lemma AmpleNext(budget: int, reserve: nat, k: nat, took: int)
    requires k > 0 && Ample(budget, reserve, k) && took <= Window(budget, k - 1, reserve)
    ensures Ample(budget - took, reserve, k - 1)
  {
    if k > 1 {
      assert (k - 1) * reserve >= (k - 1) * MIN_ATTEMPT_MS;
    }
  }

  /** An ample budget gives every eligible gateway the minimum, however soon attempts fail. */
  lemma {:induction false} AmpleSuffices(budget: int, reserve: nat, tooks: seq<int>)
    requires Ample(budget, reserve, |tooks|) && Prompt(budget, reserve, tooks)
    ensures AllGetMinimum(budget, reserve, tooks)
    decreases |tooks|
  {
    if tooks != [] {
      AmpleWindow(budget, reserve, |tooks|);
      AmpleNext(budget, reserve, |tooks|, tooks[0]);
      AmpleSuffices(budget - tooks[0], reserve, tooks[1..]);
    }
  }

  /** Attempts that all run out their windows. */
  function WorstCase(budget: int, reserve: nat, k: nat): (tooks: seq<int>)
    ensures |tooks| == k
    decreases k
  {
    if k == 0 then []
    else
      var w := Window(budget, k - 1, reserve);
      [w] + WorstCase(budget - w, reserve, k - 1)
  }

  lemma {:induction false} WorstCasePrompt(budget: int, reserve: nat, k: nat)
    ensures Prompt(budget, reserve, WorstCase(budget, reserve, k))
    decreases k
  {
    if k > 0 {
      var w := Window(budget, k - 1, reserve);
      assert WorstCase(budget, reserve, k)[1..] == WorstCase(budget - w, reserve, k - 1);
      WorstCasePrompt(budget - w, reserve, k - 1);
    }
  }

  lemma {:induction false} MinimumNeedsAmple(budget: int, reserve: nat, k: nat)
    requires AllGetMinimum(budget, reserve, WorstCase(budget, reserve, k))
    ensures Ample(budget, reserve, k)
    decreases k
  {
    if k > 0 {
      var tooks := WorstCase(budget, reserve, k);
      var w := Window(budget, k - 1, reserve);
      var ws := Windows(budget, reserve, tooks);
      assert tooks[1..] == WorstCase(budget - w, reserve, k - 1);
      assert ws[0] == w;
      var rest := Windows(budget - w, reserve, tooks[1..]);
      assert ws == [w] + rest;
      forall i | 0 <= i < |rest| ensures rest[i] >= MIN_ATTEMPT_MS {
        assert rest[i] == ws[i + 1];
      }
      MinimumNeedsAmple(budget - w, reserve, k - 1);
    }
  }

  /** Every run of prompt attempts gives all gateways the minimum exactly when the budget is ample. */
  lemma EveryAttemptGetsMinimumIff(budget: int, reserve: nat, k: nat)
    ensures Ample(budget, reserve, k) <==>
              forall tooks: seq<int> :: |tooks| == k && Prompt(budget, reserve, tooks) ==>
                  AllGetMinimum(budget, reserve, tooks)
  {
    if Ample(budget, reserve, k) {
      forall tooks: seq<int> | |tooks| == k &&
          Prompt(budget, reserve, tooks) ensures AllGetMinimum(budget, reserve, tooks) {
        AmpleSuffices(budget, reserve, tooks);
      }
    }
    if forall tooks: seq<int> :: |tooks| == k && Prompt(budget, reserve, tooks) ==>
        AllGetMinimum(budget, reserve, tooks) {
      WorstCasePrompt(budget, reserve, k);
      MinimumNeedsAmple(budget, reserve, k);
    }
  }

  // ---------- The same over the visits of a request ----------

  function CountEligible(visits: seq<Visit>): nat {
    if visits == [] then 0
    else CountEligible(visits[..|visits| - 1]) + if visits[|visits| - 1].Eligible() then 1 else 0
  }

  /** No gateway starts or ends a cooldown during the request. */
  ghost predicate Steady(visits: seq<Visit>) {
    && (forall i :: 0 <= i < |visits| ==> |visits[i].rest| == |visits| - 1 - i)
    && (forall i, j :: 0 <= i < j < |visits| ==>
          (visits[i].rest[j - i - 1] <= visits[i].wall <==> visits[j].Eligible()))
  }

  /** The client stays, skipped gateways cost no time, and no attempt outlasts its window. */
  ghost predicate InTime(visits: seq<Visit>, deadline: nat, reserve: nat) {
    && (forall i :: 0 <= i < |visits| ==> !visits[i].gone)
    && (forall i :: 0 <= i < |visits| - 1 ==>
          visits[i].at <= visits[i + 1].at <= visits[i].at +
            if visits[i].Eligible() then Window(deadline - visits[i].at, visits[i].Later(), reserve) else 0)
  }

  lemma {:induction false} LaterCounts(cooldowns: seq<nat>, wall: nat, visits: seq<Visit>)
    requires |cooldowns| == |visits|
    requires forall j :: 0 <= j < |visits| ==> (cooldowns[j] <= wall <==> visits[j].Eligible())
    ensures CountReady(cooldowns, wall) == CountEligible(visits)
  {
    if visits != [] {
      LaterCounts(cooldowns[..|cooldowns| - 1], wall, visits[..|visits| - 1]);
    }
  }

  lemma {:induction false} CountFirst(visits: seq<Visit>)
    requires visits != []
    ensures CountEligible(visits) == (if visits[0].Eligible() then 1 else 0) + CountEligible(visits[1..])
  {
    if |visits| > 1 {
      CountFirst(visits[..|visits| - 1]);
      assert visits[..|visits| - 1][1..] == visits[1..][..|visits| - 2];
    }
  }

  lemma TailIsSteady(visits: seq<Visit>)
    requires visits != [] && Steady(visits)
    ensures Steady(visits[1..])
  {
    var rest := visits[1..];
    forall i | 0 <= i < |rest| ensures |rest[i].rest| == |rest| - 1 - i {
      assert rest[i] == visits[i + 1];
    }
    forall i, j | 0 <= i < j < |rest| ensures rest[i].rest[j - i - 1] <= rest[i].wall <==> rest[j].Eligible() {
      assert rest[i] == visits[i + 1] && rest[j] == visits[j + 1];
    }
  }

  lemma TailKeepsTime(visits: seq<Visit>, deadline: nat, reserve: nat)
    requires visits != [] && InTime(visits, deadline, reserve)
    ensures InTime(visits[1..], deadline, reserve)
  {
    hide Window, Visit.Later;
    var rest := visits[1..];
    assert forall j :: 0 <= j < |rest| ==> rest[j] == visits[j + 1];
  }

  lemma TailIsLater(visits: seq<Visit>)
    requires visits != [] && Steady(visits)
    ensures visits[0].Later() == CountEligible(visits[1..])
  {
    hide CountEligible, CountReady;
    var rest := visits[1..];
    forall j | 0 <= j < |rest| ensures visits[0].rest[j] <= visits[0].wall <==> rest[j].Eligible() {
      assert rest[j] == visits[j + 1];
    }
    LaterCounts(visits[0].rest, visits[0].wall, rest);
  }

  lemma TailInTime(visits: seq<Visit>, deadline: nat, reserve: nat)
    requires visits != [] && Steady(visits) && InTime(visits, deadline, reserve)
    ensures Steady(visits[1..]) && InTime(visits[1..], deadline, reserve)
    ensures visits[0].Later() == CountEligible(visits[1..])
  {
    hide Steady, InTime, CountEligible, Visit.Later;
    TailIsSteady(visits);
    TailKeepsTime(visits, deadline, reserve);
    TailIsLater(visits);
  }

  lemma FirstInTime(visits: seq<Visit>, deadline: nat, reserve: nat)
    requires visits != [] && InTime(visits, deadline, reserve)
    ensures !visits[0].gone
    ensures |visits| > 1 ==>
              visits[0].at <= visits[1].at <= visits[0].at +
                if visits[0].Eligible() then Window(deadline - visits[0].at, visits[0].Later(), reserve) else 0
  {
    hide Window, Visit.Later;
  }

  lemma FirstGetsMinimum(visits: seq<Visit>, deadline: nat, reserve: nat)
    requires visits != [] && InTime(visits, deadline, reserve)
    requires visits[0].Later() == CountEligible(visits[1..])
    requires Ample(deadline - visits[0].at, reserve, CountEligible(visits))
    ensures var v := visits[0];
            v.Eligible() ==>
              Attempted(v, deadline) && Window(deadline - v.at, v.Later(), reserve) >= MIN_ATTEMPT_MS
    ensures |visits| > 1 ==> Ample(deadline - visits[1].at, reserve, CountEligible(visits[1..]))
  {
    hide CountEligible, Visit.Later, Window, Ample, InTime;
    var v := visits[0];
    FirstInTime(visits, deadline, reserve);
    CountFirst(visits);
    if v.Eligible() {
      AmpleWindow(deadline - v.at, reserve, CountEligible(visits));
      if |visits| > 1 {
        AmpleNext(deadline - v.at, reserve, CountEligible(visits), visits[1].at - v.at);
      }
    }
  }

  /** With an ample budget and steady eligibility, every eligible gateway is tried for at least the minimum. */
  lemma {:induction false} EveryEligibleGatewayGetsMinimum(visits: seq<Visit>, deadline: nat, reserve: nat)
    requires Steady(visits) && InTime(visits, deadline, reserve)
    requires visits != [] ==> Ample(deadline - visits[0].at, reserve, CountEligible(visits))
    ensures forall v :: v in visits && v.Eligible() ==>
              Attempted(v, deadline) && Window(deadline - v.at, v.Later(), reserve) >= MIN_ATTEMPT_MS
    decreases |visits|
  {
    if visits != [] {
      TailInTime(visits, deadline, reserve);
      hide Steady, InTime, Ample, Window, CountEligible, Visit.Later, Visit.Eligible, Attempted;
      FirstGetsMinimum(visits, deadline, reserve);
      EveryEligibleGatewayGetsMinimum(visits[1..], deadline, reserve);
      assert visits == [visits[0]] + visits[1..];
    }
  }
}
