/**
 The RPC proxy's answer path: the readiness gate, the cache of invariant results
 under a concatenated key, and failover over at most two endpoints. The cache
 may forget anything at any time; other requests run between any two steps.
 */
module RpcService {
  import opened Options
  import opened Health

  datatype Network = Dev | Testnet | Mainnet

  function Name(n: Network): string {
    match n
    case Dev => "dev"
    case Testnet => "testnet"
    case Mainnet => "mainnet"
  }

  type Value = nat

  /** An id as section 4 of the JSON-RPC 2.0 specification allows it. */
  datatype RpcId = NullId | StringId(text: string) | NumberId(number: int)

  /** A response object, section 5 of the JSON-RPC 2.0 specification, or whatever else an upstream sent. */
  datatype Reply = Envelope(id: RpcId, result: Option<Value>, error: Option<nat>) | NotAnObject

  /** What a caller asks for, with the parameters as they serialise. */
  datatype Query = Query(network: Network, rpcMethod: string, params: string)

  datatype Config = Config(pins: map<Network, Identity>, primaries: map<Network, string>) {
    function Pin(n: Network): Option<Identity> {
      if n in pins then Some(pins[n]) else None
    }
  }

  // ---------- The cache key ----------

  predicate Cacheable(rpcMethod: string) {
    rpcMethod == "qrl_chainId" || rpcMethod == "net_version"
  }

  function IdentityKey(identity: Option<Identity>): string {
    match identity
    case None => ""
    case Some(i) => i.chainId + "-" + i.genesisHash + "-"
  }

  function CacheKey(q: Query, identity: Option<Identity>): string {
    Name(q.network) + "-" + (IdentityKey(identity) + (q.rpcMethod + "-" + q.params))
  }

  predicate Dashless(s: string) {
    '-' !in s
  }

  /** What loading the configuration guarantees of a pinned identity: two hexadecimal numbers. */
  predicate WellFormed(identity: Option<Identity>) {
    identity.Some? ==>
      && Dashless(identity.value.chainId) && Dashless(identity.value.genesisHash)
      && identity.value.chainId != "" && identity.value.chainId[0] == '0'
  }

  function FirstDash(s: string): nat {
    if s == "" || s[0] == '-' then 0 else 1 + FirstDash(s[1..])
  }

  lemma {:induction false} FirstDashAfterWord(a: string, x: string)
    requires Dashless(a)
    ensures FirstDash(a + "-" + x) == |a|
  {
    var s := a + "-" + x;
    if a == "" {
      assert s[0] == '-';
    } else {
      assert s[0] == a[0] && s[1..] == a[1..] + "-" + x;
      FirstDashAfterWord(a[1..], x);
    }
  }

  /** A dashless word before a dash can be read back. */
  lemma WordBeforeDash(a: string, b: string, x: string, y: string)
    requires Dashless(a) && Dashless(b) && a + "-" + x == b + "-" + y
    ensures a == b && x == y
  {
    var s := a + "-" + x;
    FirstDashAfterWord(a, x);
    FirstDashAfterWord(b, y);
    assert a == s[..|a|] && b == s[..|b|];
    assert x == s[|a| + 1..] && y == s[|b| + 1..];
  }

  lemma MethodsBeginWithLetters(rpcMethod: string)
    requires Cacheable(rpcMethod)
    ensures rpcMethod != "" && rpcMethod[0] != '0' && Dashless(rpcMethod)
  {
  }

  lemma IdentityReadBack(i: Option<Identity>, j: Option<Identity>, m: string, n: string, x: string, y: string)
    requires WellFormed(i) && WellFormed(j) && Cacheable(m) && Cacheable(n)
    requires IdentityKey(i) + (m + "-" + x) == IdentityKey(j) + (n + "-" + y)
    ensures i == j && m == n && x == y
  {
    hide Cacheable;
    MethodsBeginWithLetters(m);
    MethodsBeginWithLetters(n);
    KeyHead(i, m + "-" + x);
    KeyHead(j, n + "-" + y);
    if i.Some? {
      PinReadBack(i.value, j.value, m + "-" + x, n + "-" + y);
    } else {
      assert "" + (m + "-" + x) == m + "-" + x && "" + (n + "-" + y) == n + "-" + y;
    }
    WordBeforeDash(m, n, x, y);
  }

  lemma KeyHead(i: Option<Identity>, rest: string)
    requires WellFormed(i) && rest != ""
    ensures (IdentityKey(i) + rest)[0] == if i.Some? then '0' else rest[0]
  {
  }

  lemma PinReadBack(a: Identity, b: Identity, x: string, y: string)
    requires WellFormed(Some(a)) && WellFormed(Some(b))
    requires IdentityKey(Some(a)) + x == IdentityKey(Some(b)) + y
    ensures a == b && x == y
  {
    assert IdentityKey(Some(a)) + x == a.chainId + "-" + (a.genesisHash + "-" + x);
    assert IdentityKey(Some(b)) + y == b.chainId + "-" + (b.genesisHash + "-" + y);
    WordBeforeDash(a.chainId, b.chainId, a.genesisHash + "-" + x, b.genesisHash + "-" + y);
    WordBeforeDash(a.genesisHash, b.genesisHash, x, y);
  }

  /** Two cacheable requests share a key only if they are the same request against the same pinned chain. */
  lemma CacheKeyInjective(p: Query, q: Query, i: Option<Identity>, j: Option<Identity>)
    requires Cacheable(p.rpcMethod) && Cacheable(q.rpcMethod) && WellFormed(i) && WellFormed(j)
    requires CacheKey(p, i) == CacheKey(q, j)
    ensures p == q && i == j
  {
    var x := IdentityKey(i) + (p.rpcMethod + "-" + p.params);
    var y := IdentityKey(j) + (q.rpcMethod + "-" + q.params);
    WordBeforeDash(Name(p.network), Name(q.network), x, y);
    IdentityReadBack(i, j, p.rpcMethod, q.rpcMethod, p.params, q.params);
  }

  // ---------- Failover ----------

  predicate StartsWith(s: string, prefix: string) {
    prefix <= s
  }

  predicate PrimaryOnly(rpcMethod: string) {
    StartsWith(rpcMethod, "txpool_") || StartsWith(rpcMethod, "debug_") || StartsWith(rpcMethod, "admin_")
  }

  function Only(urls: seq<string>, url: Option<string>): (kept: seq<string>)
    ensures forall u :: u in kept <==> u in urls && Some(u) == url
  {
    if urls == [] then []
    else
      var init, last := urls[..|urls| - 1], urls[|urls| - 1];
      assert urls == init + [last];
      Only(init, url) + if Some(last) == url then [last] else []
  }

  function AttemptOrder(cfg: Config, q: Query, ready: seq<string>): seq<string> {
    if PrimaryOnly(q.rpcMethod)
    then Only(ready, if q.network in cfg.primaries then Some(cfg.primaries[q.network]) else None)
    else ready[..Min(|ready|, 2)]
  }

  predicate BeginsWith(s: string, prefix: string) {
    |prefix| <= |s| && forall i :: 0 <= i < |prefix| ==> s[i] == prefix[i]
  }

  ghost predicate Distinct(urls: seq<string>) {
    forall i, j :: 0 <= i < j < |urls| ==> urls[i] != urls[j]
  }

  lemma OnlyNothing(urls: seq<string>)
    ensures Only(urls, None) == []
  {
    var kept := Only(urls, None);
    assert forall i :: 0 <= i < |kept| ==> kept[i] in kept;
  }

  lemma {:induction false} OnlyOnce(urls: seq<string>, url: string)
    requires Distinct(urls)
    ensures Only(urls, Some(url)) == if url in urls then [url] else []
  {
    if urls != [] {
      var init, last := urls[..|urls| - 1], urls[|urls| - 1];
      assert urls == init + [last];
      OnlyOnce(init, url);
      assert last !in init;
    }
  }

  /** Methods of the transaction pool, debugging and administration go to the configured primary and nowhere else, if it
      is ready; any other goes to the best ready endpoint and then, if there is one, to the second best. */
  lemma AttemptsAreReady(cfg: Config, q: Query, ready: seq<string>)
    ensures var order, m := AttemptOrder(cfg, q, ready), q.rpcMethod;
            if BeginsWith(m, "txpool_") || BeginsWith(m, "debug_") || BeginsWith(m, "admin_") then
              && (forall u :: u in order <==>
                    u in ready && q.network in cfg.primaries && u == cfg.primaries[q.network])
              && (Distinct(ready) ==> |order| <= 1)
            else
              && (|ready| >= 2 ==> order == [ready[0], ready[1]])
              && (|ready| < 2 ==> order == ready)
  {
    if Distinct(ready) && q.network in cfg.primaries {
      OnlyOnce(ready, cfg.primaries[q.network]);
    }
    if q.network !in cfg.primaries {
      OnlyNothing(ready);
    }
    PrefixIff(q.rpcMethod, "txpool_");
    PrefixIff(q.rpcMethod, "debug_");
    PrefixIff(q.rpcMethod, "admin_");
  }

  lemma PrefixIff(s: string, prefix: string)
    ensures StartsWith(s, prefix) <==> BeginsWith(s, prefix)
  {
  }

  /** How a call to one endpoint ends: a reply, an upstream failure, or a refusal by our own admission control. */
  datatype Call = Replied(reply: Reply) | Failed | Refused(status: nat)

  datatype Response = Respond(reply: Reply) | HttpError(status: nat)

  predicate Decisive(c: Call) {
    !c.Failed?
  }

  /** The first call that is not an upstream failure decides; if all fail the last failure is reported. */
  function Decision(calls: seq<Call>): Response {
    if calls == [] then HttpError(502)
    else
      match calls[0]
      case Replied(r) => Respond(r)
      case Refused(status) => HttpError(status)
      case Failed => Decision(calls[1..])
  }

  /** The client is told what the first endpoint said that did not fail, a refusal of ours with its status, and 502 when
      every endpoint failed. */
  lemma {:induction false} DecisionIs(calls: seq<Call>, k: nat)
    requires k <= |calls| && forall i :: 0 <= i < k ==> calls[i].Failed?
    requires k < |calls| ==> !calls[k].Failed?
    ensures Decision(calls) ==
            if k == |calls| then HttpError(502)
            else match calls[k] case Replied(r) => Respond(r) case Refused(status) => HttpError(status)
    decreases k
  {
    if k > 0 {
      DecisionIs(calls[1..], k - 1);
    }
  }

  /** Call the endpoints in order; `tried` says how many were called. */
  method Failover(calls: seq<Call>) returns (response: Response, tried: nat)
    ensures response == Decision(calls)
    ensures tried <= |calls|
    ensures forall i :: 0 <= i < tried - 1 ==> calls[i].Failed?
    ensures tried < |calls| ==> tried > 0 && Decisive(calls[tried - 1])
    ensures response.Respond? ==> tried > 0 && calls[tried - 1] == Replied(response.reply)
  {
    tried := 0;
    while tried < |calls|
      invariant tried <= |calls|
      invariant forall i :: 0 <= i < tried ==> calls[i].Failed?
      invariant Decision(calls) == Decision(calls[tried..])
    {
      var call := calls[tried];
      assert calls[tried..][1..] == calls[tried + 1..];
      tried := tried + 1;
      match call {
        case Replied(r) => return Respond(r), tried;
        case Refused(status) => return HttpError(status), tried;
        case Failed =>
      }
    }
    response := HttpError(502);
  }

  // ---------- The service ----------

  function Worthy(r: Reply): bool {
    r.Envelope? && r.error.None? && r.result.Some?
  }

  /** What happens to the cache: a call came back for a query, or some entry was forgotten. */
  datatype Event = Returned(q: Query, response: Response) | Forgotten(key: string)

  function Step(cfg: Config, cache: map<string, Value>, e: Event): map<string, Value> {
    match e
    case Forgotten(key) => cache - {key}
    case Returned(q, response) =>
      if Cacheable(q.rpcMethod) && response.Respond? && Worthy(response.reply)
      then cache[CacheKey(q, cfg.Pin(q.network)) := response.reply.result.value]
      else cache
  }

  function Run(cfg: Config, events: seq<Event>): map<string, Value> {
    if events == [] then map[] else Step(cfg, Run(cfg, events[..|events| - 1]), events[|events| - 1])
  }

  /** Some error-free upstream reply to this very query carried this result. */
  ghost predicate Genuine(events: seq<Event>, q: Query, v: Value) {
    exists e :: e in events && e.Returned? && e.q == q && e.response.Respond? && Worthy(e.response.reply) &&
                e.response.reply.result == Some(v)
  }

  ghost predicate PinsWellFormed(cfg: Config) {
    forall n :: WellFormed(cfg.Pin(n))
  }

  /** Whatever is cached under a query's key is a genuine answer to that query. */
  lemma {:induction false} CachedIsGenuine(cfg: Config, events: seq<Event>, q: Query)
    requires PinsWellFormed(cfg) && Cacheable(q.rpcMethod)
    requires CacheKey(q, cfg.Pin(q.network)) in Run(cfg, events)
    ensures Genuine(events, q, Run(cfg, events)[CacheKey(q, cfg.Pin(q.network))])
  {
    var init, last := events[..|events| - 1], events[|events| - 1];
    var key := CacheKey(q, cfg.Pin(q.network));
    hide CacheKey;
    if last.Returned? && Run(cfg, events) != Run(cfg, init) && key == CacheKey(last.q, cfg.Pin(last.q.network)) {
      assert WellFormed(cfg.Pin(q.network)) && WellFormed(cfg.Pin(last.q.network));
      CacheKeyInjective(q, last.q, cfg.Pin(q.network), cfg.Pin(last.q.network));
      assert last in events;
    } else {
      CachedIsGenuine(cfg, init, q);
      var v := Run(cfg, init)[key];
      var e :| e in init && e.Returned? && e.q == q && e.response.Respond? && Worthy(e.response.reply) &&
               e.response.reply.result == Some(v);
      assert e in events;
    }
  }

  /** An error-free result for the chain id or the network version is found again under the query's key, and no other
      reply leaves anything behind. */
  lemma CachedExactly(cfg: Config, events: seq<Event>, q: Query, response: Response)
    ensures var before, after := Run(cfg, events), Run(cfg, events + [Returned(q, response)]);
            if (q.rpcMethod == "qrl_chainId" || q.rpcMethod == "net_version")
               && response.Respond? && response.reply.Envelope?
               && response.reply.error.None? && response.reply.result.Some?
            then after == before[CacheKey(q, cfg.Pin(q.network)) := response.reply.result.value]
            else after == before
  {
    var e := Returned(q, response);
    assert (events + [e])[..|events|] == events;
  }

  class RpcProxy {
    const cfg: Config
    var cache: map<string, Value>
    /** Everything that ever happened to the cache. */
    ghost var events: seq<Event>

    ghost predicate Valid()
      reads this
    {
      PinsWellFormed(cfg) && cache == Run(cfg, events)
    }

    constructor (cfg: Config)
      requires PinsWellFormed(cfg)
      ensures Valid() && this.cfg == cfg
    {
      this.cfg := cfg;
      cache := map[];
      events := [];
    }

    ghost method Happened(e: Event)
      requires PinsWellFormed(cfg) && cache == Step(cfg, Run(cfg, events), e)
      modifies `events
      ensures Valid() && events == old(events) + [e]
    {
      assert (events + [e])[..|events|] == events;
      events := events + [e];
    }

    /** An entry expires or is evicted. */
    method Forget(key: string)
      requires Valid()
      modifies this
      ensures Valid() && cache == old(cache) - {key}
    {
      cache := cache - {key};
      Happened(Forgotten(key));
    }

    /**
     The turn before any upstream call: refuse when nothing is ready, answer from the cache, or say whom to try.
     A cached answer is a genuine result for this query under the caller's own id.
     */
    method Begin(q: Query, id: RpcId, ready: seq<string>) returns (done: Option<Response>, order: seq<string>)
      requires Valid()
      ensures ready == [] ==> done == Some(HttpError(503)) && order == []
      ensures done.Some? && done.value.Respond? ==>
                && ready != [] && Cacheable(q.rpcMethod)
                && exists v :: done.value.reply == Envelope(id, Some(v), None) && Genuine(events, q, v)
      ensures ready != [] && Cacheable(q.rpcMethod) && CacheKey(q, cfg.Pin(q.network)) in cache ==>
                done == Some(Respond(Envelope(id, Some(cache[CacheKey(q, cfg.Pin(q.network))]), None)))
      ensures ready != [] && !(Cacheable(q.rpcMethod) && CacheKey(q, cfg.Pin(q.network)) in cache) ==>
                && order == AttemptOrder(cfg, q, ready)
                && done == if order == [] then Some(HttpError(503)) else None
      ensures done.Some? ==> order == []
    {
      order := [];
      if |ready| == 0 {
        return Some(HttpError(503)), [];
      }
      var key := CacheKey(q, cfg.Pin(q.network));
      if Cacheable(q.rpcMethod) && key in cache {
        CachedIsGenuine(cfg, events, q);
        return Some(Respond(Envelope(id, Some(cache[key]), None))), [];
      }
      order := AttemptOrder(cfg, q, ready);
      done := None;
      if |order| == 0 {
        done := Some(HttpError(503));
      }
    }

    /** The turn after the upstream calls: only an error-free result of an invariant method is cached. */
    method Finish(q: Query, calls: seq<Call>) returns (response: Response)
      requires Valid()
      modifies this
      ensures Valid() && response == Decision(calls) && events == old(events) + [Returned(q, response)]
    {
      var tried;
      response, tried := Failover(calls);
      if Cacheable(q.rpcMethod) && response.Respond? && Worthy(response.reply) {
        cache := cache[CacheKey(q, cfg.Pin(q.network)) := response.reply.result.value];
      }
      Happened(Returned(q, response));
    }
  }
}
