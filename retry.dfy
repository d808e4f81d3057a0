/** `update_batch` and `RetryLogger` (cu_api/companies.py:261-305): one batch
    POSTed up to `max_retries` times, waiting out 429 responses (section 4 of
    RFC 6585) for the delay-seconds of their Retry-After header (section
    10.2.3 of RFC 9110, integer form). */
module RetryPolicy {
  import opened Python

  const StatusOk: int := 200
  const StatusTooManyRequests: int := 429

  /** `max_retries` when the caller gives none (line 282). */
  const DefaultMaxRetries: nat := 3

  /** The pause after every rate-limit wait (line 292). */
  const ExtraPause: real := 0.25

  /** What one POST of the batch gets back: the status and the Retry-After
      header, if any. */
  datatype Response = Response(status: int, retryAfter: Option<string>)

  /** `int(response.headers.get("Retry-After", 1))` (line 288): 1 when the
      header is absent, else its integer value; `Err(h)` where `int(h)` raises. */
  function RetryDelay(resp: Response): (r: Result<int, string>)
    ensures resp.retryAfter.None? ==> r == Ok(1)
    ensures resp.retryAfter.Some? ==>
      (r.Ok? <==> ParseInt(resp.retryAfter.value).Some?)
      && (r.Ok? ==> Some(r.value) == ParseInt(resp.retryAfter.value))
      && (r.Err? ==> r.error == resp.retryAfter.value)
  {
    match resp.retryAfter
    case None => Ok(1)
    case Some(h) =>
      match ParseInt(h)
      case None => Err(h)
      case Some(d) => Ok(d)
  }

  /** How a call ends: `True`, `False`, or the ValueError of line 288. */
  datatype Outcome = Succeeded | Failed | Raised(header: string)

  /** A call's outcome, the Retry-After delays it waited (each followed by
      the extra pause) and the number of POSTs it made. */
  datatype BatchRun = BatchRun(outcome: Outcome, delays: seq<int>, posts: nat)

  /** The loop of lines 284-305 from attempt `attempt` on, with the delays
      waited so far; `respond(a)` is the response to attempt a. */
  function BatchFrom(respond: nat -> Response, maxRetries: nat, attempt: nat, delays: seq<int>): BatchRun
    requires attempt <= maxRetries
    decreases maxRetries - attempt
  {
    if attempt == maxRetries then BatchRun(Failed, delays, attempt)
    else
      var resp := respond(attempt);
      if resp.status == StatusTooManyRequests then
        match RetryDelay(resp)
        case Err(h) => BatchRun(Raised(h), delays, attempt + 1)
        case Ok(d) => BatchFrom(respond, maxRetries, attempt + 1, delays + [d])
      else if resp.status != StatusOk then BatchRun(Failed, delays, attempt + 1)
      else BatchRun(Succeeded, delays, attempt + 1)
  }

  /** A whole call of `update_batch`. */
  function Batch(respond: nat -> Response, maxRetries: nat): BatchRun {
    BatchFrom(respond, maxRetries, 0, [])
  }

  /** The `asyncio.sleep` calls made for the given Retry-After delays. */
  function Sleeps(delays: seq<int>): (s: seq<real>)
    ensures |s| == 2 * |delays|
  {
    if delays == [] then []
    else Sleeps(delays[..|delays| - 1]) + [delays[|delays| - 1] as real, ExtraPause]
  }

  lemma {:induction false} SleepsAt(delays: seq<int>, i: nat)
    requires i < |delays|
    ensures Sleeps(delays)[2 * i] == delays[i] as real
    ensures Sleeps(delays)[2 * i + 1] == ExtraPause
  {
    if i < |delays| - 1 {
      SleepsAt(delays[..|delays| - 1], i);
    }
  }

  /** The run from attempt a, given the delays before it: each earlier delay is
      kept; every further delay belongs to a 429 whose header parsed; and the
      call ends on the response right after the last delay, or runs out of
      attempts. */
  lemma {:induction false} BatchFromShape(respond: nat -> Response, maxRetries: nat, attempt: nat, delays: seq<int>)
    requires attempt <= maxRetries && |delays| == attempt
    ensures var run := BatchFrom(respond, maxRetries, attempt, delays);
      && |delays| <= |run.delays| <= run.posts <= maxRetries
      && run.delays[..|delays|] == delays
      && (forall i :: attempt <= i < |run.delays| ==>
            respond(i).status == StatusTooManyRequests && RetryDelay(respond(i)) == Ok(run.delays[i]))
      && (run.outcome == Succeeded ==>
            run.posts == |run.delays| + 1 && respond(|run.delays|).status == StatusOk)
      && (run.outcome == Failed ==>
            (run.posts == |run.delays| == maxRetries)
            || (run.posts == |run.delays| + 1
                && respond(|run.delays|).status != StatusOk
                && respond(|run.delays|).status != StatusTooManyRequests))
      && (run.outcome.Raised? ==>
            && run.posts == |run.delays| + 1
            && respond(|run.delays|).status == StatusTooManyRequests
            && RetryDelay(respond(|run.delays|)) == Err(run.outcome.header))
    decreases maxRetries - attempt
  {
    if attempt < maxRetries {
      var resp := respond(attempt);
      if resp.status == StatusTooManyRequests && RetryDelay(resp).Ok? {
        var more := delays + [RetryDelay(resp).value];
        BatchFromShape(respond, maxRetries, attempt + 1, more);
        var run := BatchFrom(respond, maxRetries, attempt + 1, more);
        assert run.delays[..|more|][attempt] == run.delays[attempt];
      }
    }
  }

  /** Every 429 before the deciding response waited its own Retry-After delay,
      in order; the call makes at most `max_retries` POSTs, one more than the
      number of waits unless it ran out of attempts. */
  lemma BatchShape(respond: nat -> Response, maxRetries: nat)
    ensures var run := Batch(respond, maxRetries);
      && |run.delays| <= run.posts <= maxRetries
      && (forall i :: 0 <= i < |run.delays| ==>
            respond(i).status == StatusTooManyRequests && RetryDelay(respond(i)) == Ok(run.delays[i]))
      && (run.outcome == Succeeded <==>
            run.posts == |run.delays| + 1 && respond(|run.delays|).status == StatusOk)
      && (run.outcome.Raised? ==> RetryDelay(respond(|run.delays|)) == Err(run.outcome.header))
      && (run.posts == |run.delays| ==> run.outcome == Failed && run.posts == maxRetries)
  {
    BatchFromShape(respond, maxRetries, 0, []);
  }

  /** A 429 whose wait can be computed: the loop goes on to the next attempt. */
  predicate Throttled(resp: Response) {
    resp.status == StatusTooManyRequests && RetryDelay(resp).Ok?
  }

  lemma {:induction false} BatchFromSucceedsIff(respond: nat -> Response, maxRetries: nat, attempt: nat, delays: seq<int>)
    requires attempt <= maxRetries
    ensures BatchFrom(respond, maxRetries, attempt, delays).outcome == Succeeded <==>
      exists j :: attempt <= j < maxRetries && respond(j).status == StatusOk
        && forall i :: attempt <= i < j ==> Throttled(respond(i))
    decreases maxRetries - attempt
  {
    if attempt < maxRetries {
      var resp := respond(attempt);
      if Throttled(resp) {
        BatchFromSucceedsIff(respond, maxRetries, attempt + 1, delays + [RetryDelay(resp).value]);
        if BatchFrom(respond, maxRetries, attempt, delays).outcome == Succeeded {
          var j :| attempt + 1 <= j < maxRetries && respond(j).status == StatusOk
            && forall i :: attempt + 1 <= i < j ==> Throttled(respond(i));
          assert forall i :: attempt <= i < j ==> Throttled(respond(i));
        }
      }
    }
  }

  /** `True` exactly when some attempt within the budget answers 200 and every
      attempt before it is a 429 with a usable Retry-After. */
  lemma BatchSucceedsIff(respond: nat -> Response, maxRetries: nat)
    ensures Batch(respond, maxRetries).outcome == Succeeded <==>
      exists j :: 0 <= j < maxRetries && respond(j).status == StatusOk
        && forall i :: 0 <= i < j ==> Throttled(respond(i))
  {
    BatchFromSucceedsIff(respond, maxRetries, 0, []);
  }

  /** The first response decides when it is not a 429: 200 gives `True` and any
      other status `False`, after one POST and no sleep. */
  lemma FirstResponseDecides(respond: nat -> Response, maxRetries: nat)
    requires maxRetries > 0 && respond(0).status != StatusTooManyRequests
    ensures Batch(respond, maxRetries).posts == 1
    ensures Sleeps(Batch(respond, maxRetries).delays) == []
    ensures Batch(respond, maxRetries).outcome == (if respond(0).status == StatusOk then Succeeded else Failed)
  {
  }

  /** With `max_retries == 0` nothing is posted and the result is `False`. */
  lemma NoAttemptsNoRequest(respond: nat -> Response)
    ensures Batch(respond, 0) == BatchRun(Failed, [], 0)
  {
  }

  lemma {:induction false} BatchFromExhausted(respond: nat -> Response, maxRetries: nat, attempt: nat, delays: seq<int>)
    requires attempt <= maxRetries
    requires forall i :: attempt <= i < maxRetries ==> Throttled(respond(i))
    ensures BatchFrom(respond, maxRetries, attempt, delays).outcome == Failed
    ensures BatchFrom(respond, maxRetries, attempt, delays).posts == maxRetries
    ensures |BatchFrom(respond, maxRetries, attempt, delays).delays| == |delays| + maxRetries - attempt
    decreases maxRetries - attempt
  {
    if attempt < maxRetries {
      BatchFromExhausted(respond, maxRetries, attempt + 1, delays + [RetryDelay(respond(attempt)).value]);
    }
  }

  /** `max_retries` consecutive 429s with usable headers: that many POSTs and
      waits, then `False`. */
  lemma ExhaustedRetries(respond: nat -> Response, maxRetries: nat)
    requires forall i :: 0 <= i < maxRetries ==> Throttled(respond(i))
    ensures Batch(respond, maxRetries).outcome == Failed
    ensures Batch(respond, maxRetries).posts == maxRetries
    ensures |Sleeps(Batch(respond, maxRetries).delays)| == 2 * maxRetries
  {
    BatchFromExhausted(respond, maxRetries, 0, []);
  }

  /** A 429 without Retry-After waits one second. */
  lemma MissingHeaderWaitsOneSecond(respond: nat -> Response, maxRetries: nat)
    requires maxRetries >= 2
    requires respond(0) == Response(StatusTooManyRequests, None) && respond(1).status == StatusOk
    ensures Batch(respond, maxRetries) == BatchRun(Succeeded, [1], 2)
    ensures Sleeps(Batch(respond, maxRetries).delays) == [1.0, ExtraPause]
  {
    assert BatchFrom(respond, maxRetries, 1, [1]) == BatchRun(Succeeded, [1], 2);
    assert [] + [1] == [1];
    assert Sleeps([1]) == Sleeps([]) + [1.0, ExtraPause];
  }

  /** A Retry-After of "5" waits five seconds plus the extra pause. */
  lemma HeaderDelayIsWaited(respond: nat -> Response, maxRetries: nat)
    requires maxRetries >= 2
    requires respond(0) == Response(StatusTooManyRequests, Some(DecimalString(5))) && respond(1).status == StatusOk
    ensures Batch(respond, maxRetries) == BatchRun(Succeeded, [5], 2)
    ensures Sleeps(Batch(respond, maxRetries).delays) == [5.0, ExtraPause]
  {
    ParseDecimalString(5);
    assert RetryDelay(respond(0)) == Ok(5);
    assert BatchFrom(respond, maxRetries, 1, [5]) == BatchRun(Succeeded, [5], 2);
    assert [] + [5] == [5];
    assert Sleeps([5]) == Sleeps([]) + [5.0, ExtraPause];
  }

  /** A Retry-After that `int()` rejects makes the call raise, without waiting. */
  lemma UnparsableHeaderRaises(respond: nat -> Response, maxRetries: nat)
    requires maxRetries > 0
    requires respond(0) == Response(StatusTooManyRequests, Some("soon"))
    ensures Batch(respond, maxRetries) == BatchRun(Raised("soon"), [], 1)
  {
    assert Strip("soon") == "soon";
    assert !IsDigit("soon"[0]);
  }

  // ---------------------------------------------------------------------------
  // RetryLogger (lines 261-273)

  /** The number of retries a count map holds. */
  function TotalOf(keys: seq<int>, vals: map<int, nat>): nat
    requires forall k :: k in keys ==> k in vals
  {
    if keys == [] then 0
    else
      var last := keys[|keys| - 1];
      assert last in keys;
      TotalOf(keys[..|keys| - 1], vals) + vals[last]
  }

  function Total(d: Dict<int, nat>): nat
    requires d.Valid()
  {
    TotalOf(d.keys, d.vals)
  }

  /** The sum of the counts of flushed lines. */
  function LinesTotal(lines: seq<(int, nat)>): nat {
    if lines == [] then 0 else LinesTotal(lines[..|lines| - 1]) + lines[|lines| - 1].1
  }

  /** `retry_counts[retry_after] += 1` on a defaultdict(int). */
  function Bump(d: Dict<int, nat>, key: int): (r: Dict<int, nat>)
    requires d.Valid()
    ensures r.Valid()
    ensures key in r.vals && r.vals[key] == (if key in d.vals then d.vals[key] + 1 else 1)
    ensures forall k :: k != key ==> (k in r.vals <==> k in d.vals)
    ensures forall k :: k != key && k in d.vals ==> r.vals[k] == d.vals[k]
    ensures r.keys == if key in d.vals then d.keys else d.keys + [key]
  {
    d.Put(key, d.Get(key, 0) + 1)
  }

  lemma {:induction false} TotalOfUpdateOutside(keys: seq<int>, vals: map<int, nat>, key: int, v: nat)
    requires forall k :: k in keys ==> k in vals
    requires key !in keys
    ensures TotalOf(keys, vals[key := v]) == TotalOf(keys, vals)
  {
    if keys != [] {
      TotalOfUpdateOutside(keys[..|keys| - 1], vals, key, v);
    }
  }

  lemma {:induction false} TotalOfIncrement(keys: seq<int>, vals: map<int, nat>, key: int)
    requires forall k :: k in keys ==> k in vals
    requires Distinct(keys) && key in keys
    ensures TotalOf(keys, vals[key := vals[key] + 1]) == TotalOf(keys, vals) + 1
  {
    var init := keys[..|keys| - 1];
    var last := keys[|keys| - 1];
    assert Distinct(init);
    if last == key {
      assert key !in init;
      TotalOfUpdateOutside(init, vals, key, vals[key] + 1);
    } else {
      assert key in init;
      TotalOfIncrement(init, vals, key);
    }
  }

  /** A logged retry adds exactly one to the counts. */
  lemma BumpTotal(d: Dict<int, nat>, key: int)
    requires d.Valid()
    ensures Total(Bump(d, key)) == Total(d) + 1
  {
    if key in d.vals {
      TotalOfIncrement(d.keys, d.vals, key);
    } else {
      var ks := d.keys + [key];
      assert ks[..|ks| - 1] == d.keys;
      TotalOfUpdateOutside(d.keys, d.vals, key, 1);
    }
  }

  lemma {:induction false} ItemsTotalPrefix(d: Dict<int, nat>, i: nat)
    requires d.Valid() && i <= |d.keys|
    ensures LinesTotal(d.Items()[..i]) == TotalOf(d.keys[..i], d.vals)
  {
    if i > 0 {
      ItemsTotalPrefix(d, i - 1);
      assert d.Items()[..i][..i - 1] == d.Items()[..i - 1];
      assert d.keys[..i][..i - 1] == d.keys[..i - 1];
    }
  }

  /** The flushed lines carry every retry the counts held. */
  lemma ItemsTotal(d: Dict<int, nat>)
    requires d.Valid()
    ensures LinesTotal(d.Items()) == Total(d)
  {
    ItemsTotalPrefix(d, |d.keys|);
    assert d.Items()[..|d.keys|] == d.Items();
    assert d.keys[..|d.keys|] == d.keys;
  }

  class RetryLogger {
    /** `retry_counts`: delay in seconds -> retries not yet reported. */
    var retryCounts: Dict<int, nat>
    /** `last_print`: the clock reading of the last flush. */
    var lastPrint: real
    /** Every retry ever logged, and those reported in flushed lines. */
    ghost var logged: nat
    ghost var reported: nat

    /** No retry is lost: each one is still counted or has been reported. */
    ghost predicate Valid()
      reads this
    {
      && retryCounts.Valid()
      && Total(retryCounts) + reported == logged
    }

    constructor()
      ensures Valid()
      ensures retryCounts == EmptyDict() && lastPrint == 0.0
      ensures logged == 0 && reported == 0
    {
      retryCounts := EmptyDict();
      lastPrint := 0.0;
      logged := 0;
      reported := 0;
    }

    /** `log_retry(retry_after)` with `time.time()` passed in as `now`: one
        line per bucket, in insertion order, when more than a second has
        passed since the last flush. */
    method LogRetry(retryAfter: int, now: real) returns (lines: seq<(int, nat)>)
      requires Valid()
      modifies this
      ensures Valid()
      ensures logged == old(logged) + 1
      ensures reported == old(reported) + LinesTotal(lines)
      ensures var bumped := Bump(old(retryCounts), retryAfter);
        if now - old(lastPrint) > 1.0 then
          lines == bumped.Items() && retryCounts == EmptyDict() && lastPrint == now
        else
          lines == [] && retryCounts == bumped && lastPrint == old(lastPrint)
    {
      var bumped := Bump(retryCounts, retryAfter);
      BumpTotal(retryCounts, retryAfter);
      logged := logged + 1;
      if now - lastPrint > 1.0 {
        lines := BucketLines(bumped);
        ItemsTotal(bumped);
        reported := reported + LinesTotal(lines);
        retryCounts := EmptyDict();
        lastPrint := now;
      } else {
        lines := [];
        retryCounts := bumped;
      }
    }
  }

  /** The `for sec, count in self.retry_counts.items()` loop of line 270: one
      `(sec, count)` line per bucket, in insertion order. */
  method BucketLines(counts: Dict<int, nat>) returns (lines: seq<(int, nat)>)
    requires counts.Valid()
    ensures lines == counts.Items()
  {
    lines := [];
    for i := 0 to |counts.keys|
      invariant lines == counts.Items()[..i]
    {
      lines := lines + [(counts.keys[i], counts.vals[counts.keys[i]])];
    }
  }

  /** The loop of lines 284-305. The waits are returned instead of slept,
      `retry_count` is their number, every wait is first reported to the
      shared `retry_logger`, and `clock(a)` is what `time.time()` reads when
      attempt a is logged. */
  method UpdateBatch(respond: nat -> Response, maxRetries: nat, logger: RetryLogger, clock: nat -> real)
    returns (outcome: Outcome, sleeps: seq<real>, posts: nat)
    requires logger.Valid()
    modifies logger
    ensures outcome == Batch(respond, maxRetries).outcome
    ensures sleeps == Sleeps(Batch(respond, maxRetries).delays)
    ensures posts == Batch(respond, maxRetries).posts
    ensures logger.Valid()
    ensures logger.logged == old(logger.logged) + |Batch(respond, maxRetries).delays|
  {
    ghost var delays: seq<int> := [];
    sleeps := [];
    for attempt := 0 to maxRetries
      invariant Batch(respond, maxRetries) == BatchFrom(respond, maxRetries, attempt, delays)
      invariant sleeps == Sleeps(delays)
      invariant logger.Valid() && logger.logged == old(logger.logged) + |delays|
    {
      var response := respond(attempt);
      if response.status == StatusTooManyRequests {
        var retryAfter := RetryDelay(response);
        if retryAfter.Err? {
          return Raised(retryAfter.error), sleeps, attempt + 1;
        }
        var _ := logger.LogRetry(retryAfter.value, clock(attempt));
        delays := delays + [retryAfter.value];
        sleeps := sleeps + [retryAfter.value as real, ExtraPause];
        continue;
      } else if response.status != StatusOk {
        return Failed, sleeps, attempt + 1;
      }
      return Succeeded, sleeps, attempt + 1;
    }
    return Failed, sleeps, maxRetries;
  }
}
