/**
 * The request gateway of src/services/api.ts: the dedup key, the backoff rule, the retry loop
 * driven by status codes, the payload unwrap, and the module-wide table of in-flight requests.
 *
 * The network is an input: `net(i)` is the outcome of the i-th call (0-based) of one logical
 * request. A pending promise is an abstract request id (an index into the gateway's log of
 * issued requests); since attempts are not interleaved here, each issued request is run to its
 * settlement when it is issued, and every caller holding its id sees that settlement.
 */
module Gateway {
  import opened Wrappers
  import opened Text
  import opened Json

  // ------------------------------------------------------------------ requests and the dedup key

  datatype ParamValue = PStr(s: string) | PNum(n: int)

  /** One entry of the `params` object, in the order the caller wrote it. */
  datatype Param = Param(name: string, value: ParamValue)

  /** The parts of an axios request config the gateway reads (`verb` is its `method`); `params` undefined is the empty list. */
  datatype RequestConfig = RequestConfig(verb: string, url: string, params: seq<Param>, data: Value)

  function HexDigit(d: nat): char
    requires d < 16
  {
    if d < 10 then ('0' as int + d) as char else ('a' as int + d - 10) as char
  }

  /** How `JSON.stringify` writes one character inside a string literal. */
  function EscapeChar(c: char): string
  {
    if c == '"' then "\\\""
    else if c == '\\' then "\\\\"
    else if c == '\n' then "\\n"
    else if c == '\r' then "\\r"
    else if c == '\t' then "\\t"
    else if c == '\U{0008}' then "\\b"
    else if c == '\U{000C}' then "\\f"
    else if c < ' ' then "\\u00" + [HexDigit(c as int / 16), HexDigit(c as int % 16)]
    else [c]
  }

  function Escape(s: string): string
  {
    if s == [] then [] else EscapeChar(s[0]) + Escape(s[1..])
  }

  function StringJson(s: string): string
  {
    "\"" + Escape(s) + "\""
  }

  function ParamValueJson(v: ParamValue): string
  {
    match v
    case PStr(s) => StringJson(s)
    case PNum(n) => IntToString(n)
  }

  function EntriesJson(ps: seq<Param>): seq<string>
  {
    if ps == [] then [] else [StringJson(ps[0].name) + ":" + ParamValueJson(ps[0].value)] + EntriesJson(ps[1..])
  }

  /** `JSON.stringify(params || {})`: members in insertion order. */
  function ParamsJson(ps: seq<Param>): string
  {
    "{" + Join(EntriesJson(ps), ",") + "}"
  }

  /** `getCacheKey`: method, url and serialised params; the request body plays no part. */
  function CacheKey(cfg: RequestConfig): string
  {
    cfg.verb + ":" + cfg.url + ":" + ParamsJson(cfg.params)
  }

  /** Two configs that differ only in their body share one key. */
  lemma KeyIgnoresBody(cfg: RequestConfig, body: Value)
    ensures CacheKey(cfg.(data := body)) == CacheKey(cfg)
  {
  }

  lemma ColonPrefix(x: string, y: string, r1: string, r2: string)
    requires ':' !in x && ':' !in y
    requires x + ":" + r1 == y + ":" + r2
    ensures x == y && r1 == r2
  {
    var k1, k2 := x + ":" + r1, y + ":" + r2;
    assert k1[|x|] == ':' && k2[|y|] == ':';
    assert |x| == |y|;
    assert x == k1[..|x|] && y == k2[..|y|];
    assert r1 == k1[|x| + 1..] && r2 == k2[|y| + 1..];
  }

  lemma KeyParts(cfg: RequestConfig)
    ensures CacheKey(cfg) == cfg.verb + ":" + (cfg.url + ":" + ParamsJson(cfg.params))
  {
  }

  /**
   * The key identifies the request line: for methods and urls without ':' (every url the
   * services pass is a path), equal keys mean equal method, equal url and equal serialised params.
   */
  lemma KeyDeterminesRequest(a: RequestConfig, b: RequestConfig)
    requires ':' !in a.verb && ':' !in b.verb && ':' !in a.url && ':' !in b.url
    requires CacheKey(a) == CacheKey(b)
    ensures a.verb == b.verb && a.url == b.url && ParamsJson(a.params) == ParamsJson(b.params)
  {
    KeyParts(a);
    KeyParts(b);
    ColonPrefix(a.verb, b.verb, a.url + ":" + ParamsJson(a.params), b.url + ":" + ParamsJson(b.params));
    ColonPrefix(a.url, b.url, ParamsJson(a.params), ParamsJson(b.params));
  }

  /** The key follows the order of the params object: the same two params in the other order give another key. */
  lemma KeyDependsOnParamOrder()
    ensures CacheKey(RequestConfig("get", "/q", [Param("a", PNum(1)), Param("b", PNum(2))], Undefined))
         != CacheKey(RequestConfig("get", "/q", [Param("b", PNum(2)), Param("a", PNum(1))], Undefined))
  {
    var ab := CacheKey(RequestConfig("get", "/q", [Param("a", PNum(1)), Param("b", PNum(2))], Undefined));
    var ba := CacheKey(RequestConfig("get", "/q", [Param("b", PNum(2)), Param("a", PNum(1))], Undefined));
    assert EntriesJson([Param("a", PNum(1)), Param("b", PNum(2))])[0] == "\"a\":1";
    assert EntriesJson([Param("b", PNum(2)), Param("a", PNum(1))])[0] == "\"b\":2";
    assert ab[9] == 'a';
    assert ba[9] == 'b';
  }

  // ------------------------------------------------------------------ outcomes and the backoff rule

  /**
   * What one network call produced: a response body, an HTTP error response (with the
   * `Retry-After` header as `parseInt` reads it, None when absent or not a number), or no
   * response at all. `message` is the error's own message.
   */
  datatype Outcome =
    | Ok(body: Value)
    | Http(status: int, retryAfter: Option<int>, message: string)
    | NoResponse(message: string)

  function Pow2(n: nat): (p: nat)
    ensures p >= 1 && (n >= 1 ==> p >= 2)
  {
    if n == 0 then 1 else 2 * Pow2(n - 1)
  }

  function Min(a: int, b: int): int { if a <= b then a else b }
  function Max(a: int, b: int): int { if a >= b then a else b }

  /** `Math.min(2000 * Math.pow(2, attempt), 15000)`, in milliseconds. */
  function Backoff(attempt: nat): (ms: nat)
    ensures ms <= 15000
    ensures attempt >= 1 ==> ms >= 4000
  {
    Min(2000 * Pow2(attempt), 15000)
  }

  lemma {:induction false} Pow2Monotone(a: nat, b: nat)
    requires a <= b
    ensures Pow2(a) <= Pow2(b)
    decreases b
  {
    if a < b {
      Pow2Monotone(a, b - 1);
    }
  }

  /** The backoff never shrinks as the attempt number grows. */
  lemma BackoffMonotone(a: nat, b: nat)
    requires a <= b
    ensures Backoff(a) <= Backoff(b)
  {
    Pow2Monotone(a, b);
  }

  /** The attempt counter is incremented before use, so the first wait is 4 s, then 8 s, then the 15 s cap. */
  lemma BackoffValues(attempt: nat)
    ensures Backoff(1) == 4000 && Backoff(2) == 8000
    ensures attempt >= 3 ==> Backoff(attempt) == 15000
  {
    assert Pow2(1) == 2 && Pow2(2) == 4 && Pow2(3) == 8;
    if attempt >= 3 {
      Pow2Monotone(3, attempt);
    }
  }

  /** A wrapped payload `{data: x}`. */
  function Envelope(x: Value): Value
  {
    Obj(map["data" := x])
  }

  /** The body is an object whose own `data` property is neither null nor undefined. */
  predicate HasPayload(body: Value)
  {
    body.Obj? && "data" in body.props && !body.props["data"].IsNullish()
  }

  /** `resp.data?.data ?? resp.data`: the wrapped value when there is one that is not null or undefined. */
  function Unwrap(body: Value): (p: Value)
    ensures HasPayload(body) ==> p == body.props["data"]
    ensures !HasPayload(body) ==> p == body
  {
    var inner := if body.IsNullish() then Undefined else Get(body, "data").value;
    if inner.IsNullish() then body else inner
  }

  /** Wrapping and unwrapping is a round trip for every non-nullish payload. */
  lemma UnwrapEnvelope(x: Value)
    ensures !x.IsNullish() ==> Unwrap(Envelope(x)) == x
    ensures x.IsNullish() ==> Unwrap(Envelope(x)) == Envelope(x)
  {
  }

  /** A body that is not an object (an array of prices, say) is returned as it is. */
  lemma UnwrapKeepsNonObjects(body: Value)
    requires !body.Obj?
    ensures Unwrap(body) == body
  {
  }

  /** The failures the loop retries: no response at all, or status 429, 502 or 503. */
  predicate Retryable(o: Outcome)
  {
    o.NoResponse? || (o.Http? && (o.status == 429 || o.status == 502 || o.status == 503))
  }

  /** The wait before the next call: Retry-After seconds when the header parsed, otherwise the backoff. */
  function PolicyWait(o: Outcome, attempt: nat): int
  {
    if o.Http? && o.retryAfter.Some? then o.retryAfter.value * 1000 else Backoff(attempt)
  }

  /** What the loop does after one call: finish with a result, or wait and call again. */
  datatype Step = Finish(result: Result<Value, Outcome>) | Retry(waitMs: int)

  /**
   * The body of the retry loop for the call made when `attempt` failures have been seen. A
   * failure first increments the counter; the retry limit is checked before the status.
   */
  function Decide(o: Outcome, attempt: nat, maxRetries: int): (s: Step)
    ensures o.Ok? ==> s == Finish(Success(Unwrap(o.body)))
    ensures Retryable(o) && attempt + 1 <= maxRetries ==> s == Retry(PolicyWait(o, attempt + 1))
    ensures !o.Ok? && !(Retryable(o) && attempt + 1 <= maxRetries) ==> s == Finish(Failure(o))
  {
    match o
    case Ok(body) => Finish(Success(Unwrap(body)))
    case Http(status, retryAfter, _) =>
      if attempt + 1 > maxRetries then Finish(Failure(o))
      else if status == 429 || status == 502 || status == 503 then
        Retry(if retryAfter.Some? then retryAfter.value * 1000 else Backoff(attempt + 1))
      else Finish(Failure(o))
    case NoResponse(_) =>
      if attempt + 1 > maxRetries then Finish(Failure(o))
      else Retry(Backoff(attempt + 1))
  }

  /** How one logical request settled: its result, how many calls it made, and the waits between them. */
  datatype Run = Run(result: Result<Value, Outcome>, calls: nat, waits: seq<int>)

  /** The retry loop from the call after `attempt` failures, with `waits` already taken. */
  function RunFrom(net: nat -> Outcome, maxRetries: int, attempt: nat, waits: seq<int>): (r: Run)
    ensures r.calls >= attempt + 1
    decreases maxRetries - attempt
  {
    match Decide(net(attempt), attempt, maxRetries)
    case Finish(r) => Run(r, attempt + 1, waits)
    case Retry(ms) => RunFrom(net, maxRetries, attempt + 1, waits + [ms])
  }

  /** One logical request: the loop from the first call. */
  function RunRequest(net: nat -> Outcome, maxRetries: int): Run
  {
    RunFrom(net, maxRetries, 0, [])
  }

  /**
   * The run is exactly "call, and call again while `Decide` says retry": every call before the
   * last was a retry with the recorded wait, and the last call decided the result.
   */
  lemma {:induction false} RunFromShape(net: nat -> Outcome, maxRetries: int, attempt: nat, waits: seq<int>)
    ensures var r := RunFrom(net, maxRetries, attempt, waits);
      && attempt + 1 <= r.calls <= Max(attempt, maxRetries) + 1
      && |r.waits| == |waits| + r.calls - 1 - attempt
      && r.waits[..|waits|] == waits
      && (forall i :: attempt <= i < r.calls - 1 ==> Decide(net(i), i, maxRetries) == Retry(r.waits[|waits| + i - attempt]))
      && Decide(net(r.calls - 1), r.calls - 1, maxRetries) == Finish(r.result)
    decreases maxRetries - attempt
  {
    match Decide(net(attempt), attempt, maxRetries)
    case Finish(res) =>
    case Retry(ms) =>
      var w := waits + [ms];
      RunFromShape(net, maxRetries, attempt + 1, w);
      var r := RunFrom(net, maxRetries, attempt + 1, w);
      assert r.waits[..|waits|] == r.waits[..|w|][..|waits|];
      forall i | attempt <= i < r.calls - 1
        ensures Decide(net(i), i, maxRetries) == Retry(r.waits[|waits| + i - attempt])
      {
        if i == attempt {
          assert r.waits[|waits|] == r.waits[..|w|][|waits|] == ms;
        }
      }
  }

  /** Characterisation of one request from its first call. */
  lemma RunRequestShape(net: nat -> Outcome, maxRetries: int)
    ensures var r := RunRequest(net, maxRetries);
      && 1 <= r.calls <= Max(0, maxRetries) + 1
      && |r.waits| == r.calls - 1
      && (forall i :: 0 <= i < r.calls - 1 ==> Decide(net(i), i, maxRetries) == Retry(r.waits[i]))
      && Decide(net(r.calls - 1), r.calls - 1, maxRetries) == Finish(r.result)
  {
    var r := RunRequest(net, maxRetries);
    RunFromShape(net, maxRetries, 0, []);
    assert forall i :: 0 <= i < r.calls - 1 ==> Decide(net(i), i, maxRetries) == Retry(r.waits[0 + i - 0]);
  }

  /**
   * Every wait follows the policy: a retryable status waits `Retry-After` seconds when the header
   * parsed, otherwise (and after a call with no response) `Backoff` of the incremented counter.
   */
  lemma WaitsFollowPolicy(net: nat -> Outcome, maxRetries: int, i: nat)
    requires i < |RunRequest(net, maxRetries).waits|
    ensures var w := RunRequest(net, maxRetries).waits[i];
      && i + 1 <= maxRetries
      && (net(i).Http? ==> (net(i).status == 429 || net(i).status == 502 || net(i).status == 503)
                           && w == if net(i).retryAfter.Some? then net(i).retryAfter.value * 1000 else Backoff(i + 1))
      && (net(i).NoResponse? ==> w == Backoff(i + 1) && 4000 <= w <= 15000)
      && !net(i).Ok?
  {
    RunRequestShape(net, maxRetries);
  }

  /**
   * The converse of `WaitsFollowPolicy`: a call that failed with a retryable outcome while the
   * incremented counter is within the limit is not the last one, and the wait after it follows the
   * policy; a successful call is always the last one.
   */
  lemma RetryableFailuresAreRetried(net: nat -> Outcome, maxRetries: int, i: nat)
    requires i < RunRequest(net, maxRetries).calls
    ensures var r := RunRequest(net, maxRetries);
      && |r.waits| == r.calls - 1
      && (Retryable(net(i)) && i + 1 <= maxRetries ==> i < r.calls - 1 && r.waits[i] == PolicyWait(net(i), i + 1))
      && (net(i).Ok? ==> i == r.calls - 1)
  {
    RunRequestShape(net, maxRetries);
  }

  /** The result is the unwrapped body of the last call, or the last call's error rethrown as it is. */
  lemma RunResult(net: nat -> Outcome, maxRetries: int)
    ensures var r := RunRequest(net, maxRetries);
      var last := net(r.calls - 1);
      && (r.result.Success? <==> last.Ok?)
      && (last.Ok? ==> r.result.value == Unwrap(last.body))
      && (r.result.Failure? ==> r.result.error == last)
  {
    RunRequestShape(net, maxRetries);
  }

  /** A status that is not 429, 502 or 503 is rethrown after exactly one call. */
  lemma NonRetryableStatusOneCall(net: nat -> Outcome, maxRetries: int)
    requires net(0).Http? && net(0).status != 429 && net(0).status != 502 && net(0).status != 503
    ensures RunRequest(net, maxRetries) == Run(Failure(net(0)), 1, [])
  {
  }

  /** The retry limit is checked before the status: with no retries left even a 503 is rethrown. */
  lemma LimitCheckedBeforeStatus(net: nat -> Outcome, maxRetries: int)
    requires !net(0).Ok? && maxRetries <= 0
    ensures RunRequest(net, maxRetries) == Run(Failure(net(0)), 1, [])
  {
  }

  /** A Retry-After value is used as it parses, with no positivity check: a header of -3 waits -3000 ms. */
  lemma NegativeRetryAfterIsUsed(net: nat -> Outcome)
    requires net(0) == Http(429, Some(-3), "Too Many Requests") && net(1).Ok?
    ensures RunRequest(net, 1) == Run(Success(Unwrap(net(1).body)), 2, [-3000])
  {
  }

  /** A 503 with `Retry-After: 2` and then a 200: two calls, one wait of 2000 ms, the 200 payload. */
  lemma ServiceUnavailableThenOk(net: nat -> Outcome, body: Value)
    requires net(0) == Http(503, Some(2), "Service Unavailable") && net(1) == Ok(body)
    ensures RunRequest(net, 1) == Run(Success(Unwrap(body)), 2, [2000])
  {
  }

  /** The retry loop as the source runs it: `attempt` is a counter updated in a `while (true)`. */
  method RetryLoop(net: nat -> Outcome, maxRetries: int) returns (run: Run)
    ensures run == RunRequest(net, maxRetries)
  {
    var attempt: nat := 0;
    var waits: seq<int> := [];
    while true
      invariant RunFrom(net, maxRetries, attempt, waits) == RunRequest(net, maxRetries)
      decreases maxRetries - attempt
    {
      var outcome := net(attempt);
      if outcome.Ok? {
        return Run(Success(Unwrap(outcome.body)), attempt + 1, waits);
      }
      var failures := attempt + 1;
      if failures > maxRetries {
        return Run(Failure(outcome), failures, waits);
      }
      if outcome.Http? && (outcome.status == 429 || outcome.status == 502 || outcome.status == 503) {
        var waitMs := if outcome.retryAfter.Some? then outcome.retryAfter.value * 1000 else Backoff(failures);
        waits := waits + [waitMs];
        attempt := failures;
        continue;
      }
      if outcome.NoResponse? {
        waits := waits + [Backoff(failures)];
        attempt := failures;
        continue;
      }
      return Run(Failure(outcome), failures, waits);
    }
  }

  // ------------------------------------------------------------------ the in-flight table

  /** A table entry: the pending request and the instant (ms) after which it is no longer shared. */
  datatype Entry = Entry(request: nat, expires: int)

  /** A request that was issued: its key and how it settles. */
  datatype Issued = Issued(key: string, run: Run)

  const InFlightWindowMs := 5000

  /** The table holds an entry for `key` that has not expired at time `now`. */
  predicate Live(inflight: map<string, Entry>, key: string, now: int)
  {
    key in inflight && inflight[key].expires > now
  }

  class RequestGateway {
    /** `requestCache`: key to the latest pending request for that key. Entries are never deleted. */
    var inflight: map<string, Entry>
    /** Every request issued so far; a request id indexes this log. */
    var issued: seq<Issued>

    /** Every entry points at a request issued for its own key, so no request is shared across keys. */
    ghost predicate Valid()
      reads this
    {
      forall k :: k in inflight ==> inflight[k].request < |issued| && issued[inflight[k].request].key == k
    }

    constructor ()
      ensures Valid() && inflight == map[] && issued == []
    {
      inflight := map[];
      issued := [];
    }

    /** How the request with id `id` settles, as every caller holding it observes. */
    function Settled(id: nat): Result<Value, Outcome>
      reads this
      requires id < |issued|
    {
      issued[id].run.result
    }

    /**
     * `requestWithRetry(config, maxRetries)` at time `now`: share the live entry for the key, or
     * issue a new request (running its retry loop on `net`) and store it for 5 s.
     */
    method Request(cfg: RequestConfig, maxRetries: int, now: int, net: nat -> Outcome) returns (id: nat)
      requires Valid()
      modifies this
      ensures Valid() && id < |issued|
      ensures issued[id].key == CacheKey(cfg)
      ensures var key := CacheKey(cfg);
        if Live(old(inflight), key, now) then
          id == old(inflight)[key].request && issued == old(issued) && inflight == old(inflight)
        else
          && id == |old(issued)|
          && issued == old(issued) + [Issued(key, RunRequest(net, maxRetries))]
          && inflight == old(inflight)[key := Entry(id, now + InFlightWindowMs)]
    {
      var key := CacheKey(cfg);
      if Live(inflight, key, now) {
        return inflight[key].request;
      }
      var run := RetryLoop(net, maxRetries);
      id := |issued|;
      issued := issued + [Issued(key, run)];
      inflight := inflight[key := Entry(id, now + InFlightWindowMs)];
    }
  }

  /**
   * Two identical requests within 5 s of each other make at most one new network request between
   * them, whatever the table held before.
   */
  method TwoIdenticalRequests(g: RequestGateway, cfg: RequestConfig, t1: int, t2: int, net1: nat -> Outcome, net2: nat -> Outcome)
    returns (id1: nat, id2: nat)
    requires g.Valid() && t1 <= t2 < t1 + InFlightWindowMs
    modifies g
    ensures g.Valid()
    ensures |old(g.issued)| <= |g.issued| <= |old(g.issued)| + 1
    ensures |g.issued| == |old(g.issued)| + 1 ==> g.issued[|old(g.issued)|].key == CacheKey(cfg)
    ensures id1 == id2 || |g.issued| == |old(g.issued)| + 1
  {
    id1 := g.Request(cfg, 1, t1, net1);
    id2 := g.Request(cfg, 1, t2, net2);
  }
}
