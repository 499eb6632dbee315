/**
 The health monitor as it runs: one record object per endpoint, updated in place
 when a poll ends, and routing decisions computed over a snapshot of them.
 */
module HealthMonitors {
  import opened Options
  import opened Health
  import opened Routing

  class EndpointRecord {
    const url: string
    var state: State
    var consecutiveFailures: nat
    var consecutiveSuccesses: nat
    var lastHeight: Option<nat>
    var lastHeightChangeAt: nat
    var lastLatencyMs: Option<nat>
    var lastVerifiedPollAt: Option<nat>
    var headTimestamp: Option<nat>
    var syncing: Option<bool>
    var verifiedIdentity: Option<Identity>

    function View(): Record
      reads this
    {
      Record(url, state, consecutiveFailures, consecutiveSuccesses, lastHeight, lastHeightChangeAt,
             lastLatencyMs, lastVerifiedPollAt, headTimestamp, syncing, verifiedIdentity)
    }

    constructor (url: string, now: nat)
      ensures View() == MakeRecord(url, now)
    {
      this.url := url;
      state := Unknown;
      consecutiveFailures := 0;
      consecutiveSuccesses := 0;
      lastHeight := None;
      lastHeightChangeAt := now;
      lastLatencyMs := None;
      lastVerifiedPollAt := None;
      headTimestamp := None;
      syncing := None;
      verifiedIdentity := None;
    }

    method ApplySuccess(cfg: Settings, height: nat, now: nat)
      modifies this
      ensures View() == ApplyPollSuccess(cfg, old(View()), height, now)
    {
      var advanced := lastHeight.None? || height > lastHeight.value;
      if advanced {
        lastHeight := Some(height);
        lastHeightChangeAt := now;
      } else if height < lastHeight.value {
        lastHeight := Some(height);
      }
      consecutiveSuccesses := consecutiveSuccesses + 1;
      consecutiveFailures := 0;
      if advanced {
        if state == Unknown || state == Stalled {
          state := Up;
        } else if state == Down && consecutiveSuccesses >= cfg.upAfter {
          state := Up;
        }
      } else if now - lastHeightChangeAt > cfg.stallAfter {
        state := Stalled;
      } else if state == Unknown {
        state := Up;
      } else if state == Down && consecutiveSuccesses >= cfg.upAfter {
        state := Up;
      }
    }

    method ApplyFailed(cfg: Settings)
      modifies this
      ensures View() == ApplyFailure(cfg, old(View()))
    {
      verifiedIdentity := None;
      consecutiveFailures := consecutiveFailures + 1;
      consecutiveSuccesses := 0;
      if consecutiveFailures >= cfg.downAfter && state != Down {
        state := Down;
      }
    }

    method Poll(cfg: Settings, reply: Reply, expected: Option<Identity>, start: nat, now: nat)
      requires start <= now
      modifies this
      ensures View() == PollOne(cfg, old(View()), reply, expected, start, now)
    {
      if reply.firstAfter.Some? {
        lastLatencyMs := reply.firstAfter;
      }
      var verdict := Verdict(reply, expected);
      if verdict.None? {
        ApplyFailed(cfg);
        return;
      }
      syncing := Some(verdict.value.syncing);
      headTimestamp := Some(verdict.value.headTimestamp);
      lastVerifiedPollAt := Some(now);
      verifiedIdentity := expected;
      lastLatencyMs := Some(now - start);
      ApplySuccess(cfg, verdict.value.height, now);
    }
  }

  /** The monitor of one network. */
  class HealthMonitor {
    const cfg: Settings
    const expected: Option<Identity>
    var endpoints: seq<EndpointRecord>
    /** The polls each endpoint has been through. */
    ghost var fleet: seq<Trace>

    ghost predicate Valid()
      reads this, endpoints
    {
      && |fleet| == |endpoints|
      && (forall i, j :: 0 <= i < j < |endpoints| ==> endpoints[i] != endpoints[j])
      && (forall i :: 0 <= i < |endpoints| ==>
            fleet[i].expected == expected && endpoints[i].View() == fleet[i].After(cfg))
    }

    function Snapshot(): (rs: seq<Record>)
      reads this, endpoints
      ensures |rs| == |endpoints| && forall i :: 0 <= i < |rs| ==> rs[i] == endpoints[i].View()
    {
      var eps := endpoints;
      seq(|eps|, i requires 0 <= i < |eps| reads eps => eps[i].View())
    }

    constructor (cfg: Settings, expected: Option<Identity>, urls: seq<string>, now: nat)
      ensures Valid() && Urls(Snapshot()) == urls
      ensures this.cfg == cfg && this.expected == expected
    {
      this.cfg := cfg;
      this.expected := expected;
      endpoints := [];
      fleet := [];
      new;
      for i := 0 to |urls|
        invariant Valid() && |endpoints| == i
        invariant forall j :: 0 <= j < i ==> endpoints[j].url == urls[j]
        invariant forall e :: e in endpoints ==> fresh(e)
      {
        var e := new EndpointRecord(urls[i], now);
        endpoints := endpoints + [e];
        fleet := fleet + [Trace(urls[i], now, expected, [])];
      }
    }

    /** A poll of the endpoint at `i` ends; polls of one endpoint never overlap. */
    method PollEndpoint(i: nat, reply: Reply, start: nat, now: nat)
      requires Valid() && i < |endpoints| && fleet[i].Now() <= start <= now
      modifies `fleet, endpoints[i]
      ensures Valid() && endpoints == old(endpoints)
      ensures fleet == old(fleet)[i := Polled(old(fleet)[i], reply, start, now)]
    {
      hide PollOne, Trace.After;
      PolledAfter(cfg, fleet[i], reply, start, now);
      endpoints[i].Poll(cfg, reply, expected, start, now);
      fleet := fleet[i := Polled(fleet[i], reply, start, now)];
    }

    /** The endpoints a request may try, best first. */
    method ReadyEndpointsForAttempt(now: nat) returns (urls: seq<string>)
      requires Valid()
      ensures urls == ReadyEndpoints(cfg, Records(cfg, fleet), expected, now)
    {
      assert Snapshot() == Records(cfg, fleet);
      urls := ReadyEndpoints(cfg, Snapshot(), expected, now);
    }
  }

  ghost function Polled(t: Trace, reply: Reply, start: nat, now: nat): Trace
    requires t.Now() <= start <= now
  {
    t.(polls := t.polls + [Poll(reply, start - t.Now(), now - start)])
  }

  lemma PolledAfter(cfg: Settings, t: Trace, reply: Reply, start: nat, now: nat)
    requires t.Now() <= start <= now
    ensures Polled(t, reply, start, now).After(cfg) == PollOne(cfg, t.After(cfg), reply, t.expected, start, now)
    ensures Polled(t, reply, start, now).Now() == now
  {
    hide PollOne;
    assert Polled(t, reply, start, now).Before() == t;
  }
}
