/** `bulk_update_async` (cu_api/companies.py:307-342): every payload is built
    first, one per window of `range(0, len(df), batch_size)`, then each is
    handed to `update_batch` with the default retry budget, and the report is
    the number of `True` results over the number of tasks. The tasks run one
    after the other here, in batch order. */
module AsyncUpdate {
  import opened Python
  import opened Batches
  import opened RetryPolicy

  /** `range(0, n, batchSize)`: a zero step raises, a negative one is empty. */
  function AsyncWindows(n: nat, batchSize: int): (r: Result<seq<Window>, UpdateError>)
    ensures batchSize == 0 <==> r == Err(ZeroBatchSize)
    ensures batchSize < 0 ==> r == Ok([])
    ensures batchSize > 0 ==> r == Ok(Windows(n, batchSize))
  {
    if batchSize == 0 then Err(ZeroBatchSize)
    else if batchSize < 0 then Ok([])
    else Ok(Windows(n, batchSize))
  }

  predicate WindowsWithin(ws: seq<Window>, n: nat) {
    forall k :: 0 <= k < |ws| ==> ws[k].start + ws[k].size <= n
  }

  /** The payload of every window, in window order, or the first entry that
      raises. */
  function Bodies(entries: seq<EntryResult>, ws: seq<Window>): (r: Result<seq<BulkBody>, UpdateError>)
    requires WindowsWithin(ws, |entries|)
    ensures r.Ok? ==> |r.value| == |ws|
  {
    if ws == [] then Ok([])
    else
      var last := ws[|ws| - 1];
      match Bodies(entries, ws[..|ws| - 1])
      case Err(e) => Err(e)
      case Ok(bodies) =>
        match Payload(entries, last.start, last.size)
        case Err(e) => Err(e)
        case Ok(p) => Ok(bodies + [BulkBody(p)])
  }

  lemma {:induction false} BodiesAt(entries: seq<EntryResult>, ws: seq<Window>, j: nat)
    requires WindowsWithin(ws, |entries|)
    requires Bodies(entries, ws).Ok? && j < |ws|
    ensures Payload(entries, ws[j].start, ws[j].size) == Ok(Bodies(entries, ws).value[j].companies)
  {
    var init := ws[..|ws| - 1];
    if j < |init| {
      BodiesAt(entries, init, j);
    }
  }

  /** The responses seen by the task of batch j: `respond(j, a)` answers its
      attempt a. */
  function Attempts(respond: (nat, nat) -> Response, j: nat): nat -> Response {
    (a: nat) => respond(j, a)
  }

  /** What `update_batch` does for each of the first `count` batches. */
  function TaskRuns(count: nat, respond: (nat, nat) -> Response): (r: seq<BatchRun>)
    ensures |r| == count
    ensures forall j :: 0 <= j < count ==> r[j] == Batch(Attempts(respond, j), DefaultMaxRetries)
  {
    seq(count, j requires 0 <= j < count => Batch(Attempts(respond, j), DefaultMaxRetries))
  }

  /** The awaited results, and the POSTs made: a task that raises ends the
      whole call. */
  datatype Tally = Tally(results: Result<seq<bool>, UpdateError>, posts: nat)

  function TallyOf(runs: seq<BatchRun>): Tally {
    if runs == [] then Tally(Ok([]), 0)
    else
      var t := TallyOf(runs[..|runs| - 1]);
      var last := runs[|runs| - 1];
      match t.results
      case Err(_) => t
      case Ok(rs) =>
        match last.outcome
        case Raised(h) => Tally(Err(BadRetryAfter(h)), t.posts + last.posts)
        case Succeeded => Tally(Ok(rs + [true]), t.posts + last.posts)
        case Failed => Tally(Ok(rs + [false]), t.posts + last.posts)
  }

  /** `results.count(True)`. */
  function CountTrue(results: seq<bool>): nat {
    if results == [] then 0
    else CountTrue(results[..|results| - 1]) + (if results[|results| - 1] then 1 else 0)
  }

  /** `"{succeeded}/{tasks} batches updated successfully."` */
  datatype AsyncReport = AsyncReport(succeeded: nat, tasks: nat)

  /** A whole call: what it returns or raises, the bodies of the tasks it
      created and the POSTs it made. */
  datatype AsyncRun = AsyncRun(result: Result<AsyncReport, UpdateError>, bodies: seq<BulkBody>, posts: nat)

  function AsyncUpdate(df: Frame, columns: seq<string>, lookup: map<string, int>, batchSize: int,
                       respond: (nat, nat) -> Response): AsyncRun
    requires WellFormed(df)
  {
    match PlanUpdate(df, columns, None, lookup)
    case Err(e) => AsyncRun(Err(e), [], 0)
    case Ok(plan) =>
      match AsyncWindows(|df.rows|, batchSize)
      case Err(e) => AsyncRun(Err(e), [], 0)
      case Ok(ws) =>
        var entries := RowEntries(df, plan);
        assert WindowsWithin(ws, |entries|) by {
          if batchSize > 0 { WindowsFit(|df.rows|, batchSize); }
        }
        TasksRun(entries, ws, respond)
  }

  /** From the windows on: build every payload, then run every task. */
  function TasksRun(entries: seq<EntryResult>, ws: seq<Window>, respond: (nat, nat) -> Response): AsyncRun
    requires WindowsWithin(ws, |entries|)
  {
    match Bodies(entries, ws)
    case Err(e) => AsyncRun(Err(e), [], 0)
    case Ok(bodies) =>
      var t := TallyOf(TaskRuns(|bodies|, respond));
      match t.results
      case Err(e) => AsyncRun(Err(e), bodies, t.posts)
      case Ok(rs) => AsyncRun(Ok(AsyncReport(CountTrue(rs), |rs|)), bodies, t.posts)
  }

  // ---------------------------------------------------------------------------
  // Properties

  lemma {:induction false} TallyPosts(runs: seq<BatchRun>, maxRetries: nat)
    requires forall j :: 0 <= j < |runs| ==> runs[j].posts <= maxRetries
    ensures TallyOf(runs).posts <= maxRetries * |runs|
  {
    if runs != [] {
      var init := runs[..|runs| - 1];
      TallyPosts(init, maxRetries);
      assert maxRetries * |runs| == maxRetries * |init| + maxRetries;
    }
  }

  /** The tally reads the runs in order: if none raised, one result per task,
      `True` exactly for those that succeeded. */
  lemma {:induction false} TallyOk(runs: seq<BatchRun>)
    ensures TallyOf(runs).results.Ok? <==> forall j :: 0 <= j < |runs| ==> !runs[j].outcome.Raised?
    ensures TallyOf(runs).results.Ok? ==>
      |TallyOf(runs).results.value| == |runs|
      && forall j :: 0 <= j < |runs| ==> TallyOf(runs).results.value[j] == (runs[j].outcome == Succeeded)
  {
    if runs != [] {
      var init := runs[..|runs| - 1];
      TallyOk(init);
      assert forall i :: 0 <= i < |init| ==> runs[i] == init[i];
      var t := TallyOf(init);
      var r := TallyOf(runs);
      if r.results.Ok? {
        forall j | 0 <= j < |runs|
          ensures r.results.value[j] == (runs[j].outcome == Succeeded)
        {
          if j < |init| {
            assert r.results.value[j] == t.results.value[j];
          }
        }
      }
    }
  }

  /** Otherwise the error is the header of the first task that raised. */
  lemma {:induction false} TallyErr(runs: seq<BatchRun>)
    ensures TallyOf(runs).results.Err? ==>
      exists j :: 0 <= j < |runs| && runs[j].outcome.Raised?
        && TallyOf(runs).results.error == BadRetryAfter(runs[j].outcome.header)
        && forall i :: 0 <= i < j ==> !runs[i].outcome.Raised?
  {
    if runs != [] {
      var init := runs[..|runs| - 1];
      TallyErr(init);
      TallyOk(init);
      assert forall i :: 0 <= i < |init| ==> runs[i] == init[i];
      var t := TallyOf(init);
      if t.results.Err? {
        var j :| 0 <= j < |init| && init[j].outcome.Raised?
          && t.results.error == BadRetryAfter(init[j].outcome.header)
          && forall i :: 0 <= i < j ==> !init[i].outcome.Raised?;
        assert runs[j] == init[j];
      }
    }
  }

  /** `count(True)` does not depend on the order in which `as_completed`
      delivers the results: it is the multiplicity of `True`. */
  lemma {:induction false} CountTrueMultiset(results: seq<bool>)
    ensures CountTrue(results) == multiset(results)[true]
    ensures CountTrue(results) <= |results|
  {
    if results != [] {
      var init := results[..|results| - 1];
      CountTrueMultiset(init);
      assert results == init + [results[|results| - 1]];
      assert multiset(results) == multiset(init) + multiset{results[|results| - 1]};
    }
  }

  lemma CountTrueOrderFree(results: seq<bool>, reordered: seq<bool>)
    requires multiset(results) == multiset(reordered)
    ensures CountTrue(results) == CountTrue(reordered)
  {
    CountTrueMultiset(results);
    CountTrueMultiset(reordered);
  }

  /** The retries the tasks log: one per wait, over every task. */
  function Waits(runs: seq<BatchRun>): nat {
    if runs == [] then 0 else Waits(runs[..|runs| - 1]) + |runs[|runs| - 1].delays|
  }

  lemma {:induction false} WaitsAppend(s: seq<BatchRun>, t: seq<BatchRun>)
    ensures Waits(s + t) == Waits(s) + Waits(t)
    decreases |t|
  {
    if t == [] {
      assert s + t == s;
    } else {
      assert (s + t)[..|s + t| - 1] == s + t[..|t| - 1];
      WaitsAppend(s, t[..|t| - 1]);
    }
  }

  /** The number of retries logged does not depend on the order the tasks
      complete in. */
  lemma {:induction false} WaitsOrderFree(runs: seq<BatchRun>, reordered: seq<BatchRun>)
    requires multiset(runs) == multiset(reordered)
    ensures Waits(runs) == Waits(reordered)
    decreases |runs|
  {
    if runs == [] {
      assert |reordered| == |multiset(reordered)| == 0;
    } else {
      var x := runs[|runs| - 1];
      var init := runs[..|runs| - 1];
      assert runs == init + [x];
      assert multiset(runs) == multiset(init) + multiset{x};
      assert x in multiset(reordered);
      var i :| 0 <= i < |reordered| && reordered[i] == x;
      var rest := SpliceOut(reordered, i);
      assert multiset(init) == multiset(rest) by {
        assert multiset(init) + multiset{x} == multiset(rest) + multiset{x};
        assert forall y :: multiset(init)[y] == multiset(rest)[y] by {
          forall y ensures multiset(init)[y] == multiset(rest)[y] {
            assert (multiset(init) + multiset{x})[y] == (multiset(rest) + multiset{x})[y];
          }
        }
      }
      WaitsOrderFree(init, rest);
      WaitsSpliceOut(reordered, i);
    }
  }

  /** The sequence without its i-th element; its multiset is the rest. */
  function SpliceOut(s: seq<BatchRun>, i: nat): (r: seq<BatchRun>)
    requires i < |s|
    ensures multiset(r) + multiset{s[i]} == multiset(s)
  {
    assert s == s[..i] + [s[i]] + s[i + 1..];
    s[..i] + s[i + 1..]
  }

  lemma WaitsSpliceOut(s: seq<BatchRun>, i: nat)
    requires i < |s|
    ensures Waits(s) == Waits(SpliceOut(s, i)) + |s[i].delays|
  {
    var before, after := s[..i], s[i + 1..];
    assert s == before + ([s[i]] + after);
    WaitsAppend(before, [s[i]] + after);
    WaitsAppend([s[i]], after);
    WaitsAppend(before, after);
    assert [s[i]][..0] == [];
  }

  lemma WaitsStep(runs: seq<BatchRun>, j: nat)
    requires j < |runs|
    ensures Waits(runs[..j + 1]) == Waits(runs[..j]) + |runs[j].delays|
  {
    assert runs[..j + 1][..j] == runs[..j];
  }

  /** The checks before any task: a missing 'id' column raises first, then an
      unknown column or duplicate id, then a zero `batch_size`. None of them
      posts anything. */
  lemma AsyncChecksFirst(df: Frame, columns: seq<string>, lookup: map<string, int>, batchSize: int,
                         respond: (nat, nat) -> Response)
    requires WellFormed(df)
    ensures "id" !in df.columns ==> AsyncUpdate(df, columns, lookup, batchSize, respond).result == Err(MissingIdColumn)
    ensures PlanUpdate(df, columns, None, lookup).Err? ==>
      AsyncUpdate(df, columns, lookup, batchSize, respond) == AsyncRun(Err(PlanUpdate(df, columns, None, lookup).error), [], 0)
    ensures PlanUpdate(df, columns, None, lookup).Ok? && batchSize == 0 ==>
      AsyncUpdate(df, columns, lookup, batchSize, respond) == AsyncRun(Err(ZeroBatchSize), [], 0)
  {
  }

  /** Every payload is built before the first POST: a row whose id does not
      resolve raises with nothing posted, whatever its batch. */
  lemma BadEntryPostsNothing(df: Frame, columns: seq<string>, lookup: map<string, int>, batchSize: int,
                             respond: (nat, nat) -> Response, idx: nat)
    requires WellFormed(df) && batchSize > 0
    requires PlanUpdate(df, columns, None, lookup).Ok? && idx < |df.rows|
    requires Entry(df, PlanUpdate(df, columns, None, lookup).value, idx).Err?
    ensures AsyncUpdate(df, columns, lookup, batchSize, respond).result.Err?
    ensures AsyncUpdate(df, columns, lookup, batchSize, respond).posts == 0
  {
    var plan := PlanUpdate(df, columns, None, lookup).value;
    var entries := RowEntries(df, plan);
    var ws := Windows(|df.rows|, batchSize);
    WindowsFit(|df.rows|, batchSize);
    RowEntriesAt(df, plan, idx);
    var j := idx / batchSize;
    WindowIndex(idx, j, batchSize);
    WindowAt(|df.rows|, batchSize, j);
    if Bodies(entries, ws).Ok? {
      BodiesAt(entries, ws, j);
      PayloadEntries(entries, ws[j].start, ws[j].size);
    }
  }

  /** Payloads of windows whose rows all resolve always build. */
  lemma {:induction false} BodiesOk(entries: seq<EntryResult>, ws: seq<Window>)
    requires WindowsWithin(ws, |entries|)
    requires forall i :: 0 <= i < |entries| ==> entries[i].Ok?
    ensures Bodies(entries, ws).Ok?
  {
    if ws != [] {
      var init := ws[..|ws| - 1];
      BodiesOk(entries, init);
      PayloadEntries(entries, ws[|ws| - 1].start, ws[|ws| - 1].size);
    }
  }

  /** With a positive batch size and a valid plan, the tasks are the payloads
      of `Windows(n, batch_size)`. */
  lemma AsyncBodies(df: Frame, columns: seq<string>, lookup: map<string, int>, batchSize: int,
                    respond: (nat, nat) -> Response)
    requires WellFormed(df) && batchSize > 0
    requires PlanUpdate(df, columns, None, lookup).Ok?
    ensures WindowsWithin(Windows(|df.rows|, batchSize), |df.rows|)
    ensures AsyncUpdate(df, columns, lookup, batchSize, respond)
      == TasksRun(RowEntries(df, PlanUpdate(df, columns, None, lookup).value), Windows(|df.rows|, batchSize), respond)
  {
    WindowsFit(|df.rows|, batchSize);
  }

  /** The payloads of `Windows(n, step)` over n resolving rows: ceil(n / step)
      of them, the j-th that of rows j * step onwards, between 1 and step of
      them. */
  lemma WindowBodies(entries: seq<EntryResult>, step: nat)
    requires step > 0
    requires forall i :: 0 <= i < |entries| ==> entries[i].Ok?
    ensures WindowsWithin(Windows(|entries|, step), |entries|)
    ensures var bodies := Bodies(entries, Windows(|entries|, step));
      && bodies.Ok?
      && |bodies.value| == (|entries| + step - 1) / step
      && forall j :: 0 <= j < |bodies.value| ==>
           && 1 <= Min(step, |entries| - j * step) <= step
           && j * step + Min(step, |entries| - j * step) <= |entries|
           && Payload(entries, j * step, Min(step, |entries| - j * step)) == Ok(bodies.value[j].companies)
  {
    var n := |entries|;
    var ws := Windows(n, step);
    WindowsFit(n, step);
    BodiesOk(entries, ws);
    var bodies := Bodies(entries, ws).value;
    assert |ws| == (n + step - 1) / step by {
      WindowsPartition(n, step);
    }
    forall j | 0 <= j < |ws|
      ensures 1 <= Min(step, n - j * step) <= step
      ensures j * step + Min(step, n - j * step) <= n
      ensures Payload(entries, j * step, Min(step, n - j * step)) == Ok(bodies[j].companies)
    {
      WindowAt(n, step, j);
      BodiesAt(entries, ws, j);
    }
  }

  /** When every row's id resolves, there is one task per window of
      `range(0, n, batch_size)`: ceil(n / batch_size) of them, the j-th holding
      the payload of rows j * batch_size onwards, between 1 and batch_size of
      them, so that every row is in exactly one task, in row order. */
  lemma AsyncPartition(df: Frame, columns: seq<string>, lookup: map<string, int>, batchSize: int,
                       respond: (nat, nat) -> Response)
    requires WellFormed(df) && batchSize > 0
    requires PlanUpdate(df, columns, None, lookup).Ok?
    requires forall idx :: 0 <= idx < |df.rows| ==> Entry(df, PlanUpdate(df, columns, None, lookup).value, idx).Ok?
    ensures var run := AsyncUpdate(df, columns, lookup, batchSize, respond);
      var entries := RowEntries(df, PlanUpdate(df, columns, None, lookup).value);
      && |run.bodies| == (|df.rows| + batchSize - 1) / batchSize
      && forall j :: 0 <= j < |run.bodies| ==>
           && 1 <= Min(batchSize, |df.rows| - j * batchSize) <= batchSize
           && j * batchSize + Min(batchSize, |df.rows| - j * batchSize) <= |df.rows|
           && Payload(entries, j * batchSize, Min(batchSize, |df.rows| - j * batchSize)) == Ok(run.bodies[j].companies)
  {
    var plan := PlanUpdate(df, columns, None, lookup).value;
    var entries := RowEntries(df, plan);
    AsyncBodies(df, columns, lookup, batchSize, respond);
    forall i | 0 <= i < |entries| ensures entries[i].Ok? {
      RowEntriesAt(df, plan, i);
    }
    WindowBodies(entries, batchSize);
  }

  /** The report of a run against the runs of its tasks: `succeeded` counts
      exactly the batches whose `update_batch` returned `True` and `tasks` is
      the number of batches; a call that raised after creating its tasks
      raised some task's header that `int()` rejects; at most three POSTs per
      batch. */
  predicate CountsAgree(run: AsyncRun, respond: (nat, nat) -> Response) {
    var runs := TaskRuns(|run.bodies|, respond);
    && run.posts <= DefaultMaxRetries * |run.bodies|
    && (run.result.Ok? ==>
          && run.result.value.tasks == |run.bodies|
          && run.result.value.succeeded <= run.result.value.tasks
          && run.result.value.succeeded == CountTrue(seq(|runs|, j requires 0 <= j < |runs| => runs[j].outcome == Succeeded)))
    && (run.result.Err? && run.bodies != [] ==>
          exists j :: 0 <= j < |runs| && runs[j].outcome.Raised?
            && run.result.error == BadRetryAfter(runs[j].outcome.header))
  }

  lemma TasksRunCounts(entries: seq<EntryResult>, ws: seq<Window>, respond: (nat, nat) -> Response)
    requires WindowsWithin(ws, |entries|)
    ensures CountsAgree(TasksRun(entries, ws, respond), respond)
  {
    var run := TasksRun(entries, ws, respond);
    var runs := TaskRuns(|run.bodies|, respond);
    forall j | 0 <= j < |runs| ensures runs[j].posts <= DefaultMaxRetries {
      BatchShape(Attempts(respond, j), DefaultMaxRetries);
    }
    TallyPosts(runs, DefaultMaxRetries);
    TallyOk(runs);
    TallyErr(runs);
    if run.result.Ok? {
      var rs := TallyOf(runs).results.value;
      assert rs == seq(|runs|, j requires 0 <= j < |runs| => runs[j].outcome == Succeeded);
      CountTrueMultiset(rs);
    }
  }

  lemma AsyncReportCounts(df: Frame, columns: seq<string>, lookup: map<string, int>, batchSize: int,
                          respond: (nat, nat) -> Response)
    requires WellFormed(df)
    ensures CountsAgree(AsyncUpdate(df, columns, lookup, batchSize, respond), respond)
  {
    var planned := PlanUpdate(df, columns, None, lookup);
    if planned.Ok? && batchSize != 0 {
      var ws := AsyncWindows(|df.rows|, batchSize).value;
      if batchSize > 0 { WindowsFit(|df.rows|, batchSize); }
      TasksRunCounts(RowEntries(df, planned.value), ws, respond);
    }
  }

  // ---------------------------------------------------------------------------
  // The coroutine

  /** Lines 324-333: the payload of every window, built before any request. */
  method BuildBodies(df: Frame, plan: Plan, ws: seq<Window>) returns (r: Result<seq<BulkBody>, UpdateError>)
    requires ValidPlan(df, plan) && WindowsWithin(ws, |df.rows|)
    ensures r == Bodies(RowEntries(df, plan), ws)
  {
    ghost var entries := RowEntries(df, plan);
    var tasks: seq<BulkBody> := [];
    for k := 0 to |ws|
      invariant Bodies(entries, ws[..k]) == Ok(tasks)
    {
      assert ws[..k + 1][..k] == ws[..k];
      var payload := BuildPayload(df, plan, ws[k].start, ws[k].size);
      if payload.Err? {
        BodiesErrorPersists(entries, ws, k + 1);
        assert ws[..|ws|] == ws;
        return Err(payload.error);
      }
      tasks := tasks + [BulkBody(payload.value)];
    }
    assert ws[..|ws|] == ws;
    return Ok(tasks);
  }

  lemma {:induction false} BodiesErrorPersists(entries: seq<EntryResult>, ws: seq<Window>, k: nat)
    requires WindowsWithin(ws, |entries|) && k <= |ws|
    requires Bodies(entries, ws[..k]).Err?
    ensures Bodies(entries, ws) == Bodies(entries, ws[..k])
    decreases |ws| - k
  {
    if k < |ws| {
      assert ws[..k + 1][..k] == ws[..k];
      BodiesErrorPersists(entries, ws, k + 1);
    } else {
      assert ws[..k] == ws;
    }
  }

  /** Lines 336-342: await every task and count the `True` results. */
  method RunTasks(count: nat, respond: (nat, nat) -> Response, logger: RetryLogger, clock: (nat, nat) -> real)
    returns (results: Result<seq<bool>, UpdateError>, posts: nat)
    requires logger.Valid()
    modifies logger
    ensures Tally(results, posts) == TallyOf(TaskRuns(count, respond))
    ensures logger.Valid()
    ensures results.Ok? ==> logger.logged == old(logger.logged) + Waits(TaskRuns(count, respond))
  {
    ghost var runs := TaskRuns(count, respond);
    ghost var logged0 := logger.logged;
    var done: seq<bool> := [];
    posts := 0;
    for j := 0 to count
      invariant TallyOf(runs[..j]) == Tally(Ok(done), posts)
      invariant logger.Valid()
      invariant logger.logged == logged0 + Waits(runs[..j])
    {
      ghost var run := runs[j];
      assert run == Batch(Attempts(respond, j), DefaultMaxRetries);
      ghost var before := logger.logged;
      var outcome, _, tries := UpdateBatch(Attempts(respond, j), DefaultMaxRetries, logger, (a: nat) => clock(j, a));
      assert logger.logged == before + |run.delays| && outcome == run.outcome && tries == run.posts;
      posts := posts + tries;
      assert runs[..j + 1][..j] == runs[..j];
      if outcome.Raised? {
        TallyErrorPersists(runs, j + 1);
        assert runs[..count] == runs;
        return Err(BadRetryAfter(outcome.header)), posts;
      }
      WaitsStep(runs, j);
      done := done + [outcome == Succeeded];
    }
    assert runs[..count] == runs;
    results := Ok(done);
  }

  lemma {:induction false} TallyErrorPersists(runs: seq<BatchRun>, k: nat)
    requires k <= |runs| && TallyOf(runs[..k]).results.Err?
    ensures TallyOf(runs) == TallyOf(runs[..k])
    decreases |runs| - k
  {
    if k < |runs| {
      assert runs[..k + 1][..k] == runs[..k];
      TallyErrorPersists(runs, k + 1);
    } else {
      assert runs[..k] == runs;
    }
  }

  /** `bulk_update_async(df, columns, headers, batch_size)`: the rows and the
      lookup are passed in, `respond(j, a)` is the server's answer to attempt a
      of batch j, and `clock(j, a)` the time when that attempt's wait is
      logged. */
  method BulkUpdateAsync(df: Frame, columns: seq<string>, lookup: map<string, int>, batchSize: int,
                         respond: (nat, nat) -> Response, logger: RetryLogger, clock: (nat, nat) -> real)
    returns (run: AsyncRun)
    requires WellFormed(df) && logger.Valid()
    modifies logger
    ensures run == AsyncUpdate(df, columns, lookup, batchSize, respond)
    ensures logger.Valid()
    ensures run.result.Ok? ==> logger.logged == old(logger.logged) + Waits(TaskRuns(|run.bodies|, respond))
  {
    var planned := PlanUpdate(df, columns, None, lookup);
    if planned.Err? {
      return AsyncRun(Err(planned.error), [], 0);
    }
    var plan := planned.value;
    var windows := AsyncWindows(|df.rows|, batchSize);
    if windows.Err? {
      return AsyncRun(Err(windows.error), [], 0);
    }
    if batchSize > 0 {
      WindowsFit(|df.rows|, batchSize);
    }
    var bodies := BuildBodies(df, plan, windows.value);
    if bodies.Err? {
      return AsyncRun(Err(bodies.error), [], 0);
    }
    var results, posts := RunTasks(|bodies.value|, respond, logger, clock);
    if results.Err? {
      return AsyncRun(Err(results.error), bodies.value, posts);
    }
    return AsyncRun(Ok(AsyncReport(CountTrue(results.value), |results.value|)), bodies.value, posts);
  }
}
