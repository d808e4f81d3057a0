/** `_bulk_update` (cu_api/companies.py:198-254): one POST per window of at
    most ten rows, in row order, stopping at the first response that is not
    200. */
module SequentialUpdate {
  import opened Python
  import opened Batches

  /** `max_size` (line 224). */
  const MaxBatchSize: nat := 10

  const StatusOk: int := 200

  /** What a call leaves behind: the bodies POSTed, in order; the final
      `companies_updated`; and the exception raised, if any. A call that raises
      nothing ends by printing 'All companies updated.'. */
  datatype SequentialReport = SequentialReport(posted: seq<BulkBody>, updated: nat, raised: Option<UpdateError>)

  /** The loop of lines 229-251 over the rows' entries, entered with
      `companies_updated == done` and the bodies `posted` already sent;
      `respond(k)` is the status the endpoint gives the k-th POST. */
  function SequentialFrom(entries: seq<EntryResult>, done: nat, posted: seq<BulkBody>, respond: nat -> int)
    : SequentialReport
    requires done <= |entries|
    decreases |entries| - done
  {
    if done == |entries| then SequentialReport(posted, done, None)
    else
      var size := Min(MaxBatchSize, |entries| - done);
      match Payload(entries, done, size)
      case Err(e) => SequentialReport(posted, done, Some(e))
      case Ok(p) =>
        if respond(|posted|) != StatusOk then SequentialReport(posted + [BulkBody(p)], done, None)
        else SequentialFrom(entries, done + size, posted + [BulkBody(p)], respond)
  }

  /** The whole of `_bulk_update`: planning, then the batch loop. */
  function SequentialUpdate(df: Frame, columns: seq<string>, cfIds: Option<seq<int>>, lookup: map<string, int>,
                            respond: nat -> int): SequentialReport
    requires WellFormed(df)
  {
    match PlanUpdate(df, columns, cfIds, lookup)
    case Err(e) => SequentialReport([], 0, Some(e))
    case Ok(plan) => SequentialFrom(RowEntries(df, plan), 0, [], respond)
  }

  /** The windows `range(0, n, 10)` in which a sequential run posts. */
  function SequentialWindows(n: nat): seq<Window> {
    Windows(n, MaxBatchSize)
  }

  /** The run after |posted| requests (with `companies_updated == 10 * |posted|`)
      keeps the requests already made and sends request j with the entries of
      window j. */
  lemma {:induction false} SequentialFromPosts(entries: seq<EntryResult>, posted: seq<BulkBody>, respond: nat -> int)
    requires |posted| * MaxBatchSize <= |entries|
    ensures forall k :: 0 <= k < |SequentialWindows(|entries|)| ==>
      SequentialWindows(|entries|)[k].start + SequentialWindows(|entries|)[k].size <= |entries|
    ensures var r := SequentialFrom(entries, |posted| * MaxBatchSize, posted, respond);
      var w := SequentialWindows(|entries|);
      && |posted| <= |r.posted| <= |w|
      && r.posted[..|posted|] == posted
      && (forall j :: |posted| <= j < |r.posted| ==>
            Payload(entries, w[j].start, w[j].size) == Ok(r.posted[j].companies))
    decreases |entries| - |posted| * MaxBatchSize
  {
    var n := |entries|;
    var w := SequentialWindows(n);
    var sent := |posted|;
    WindowsFit(n, MaxBatchSize);
    WindowAt(n, MaxBatchSize, sent);
    var done := sent * MaxBatchSize;
    if done == n && sent > 0 {
      WindowAt(n, MaxBatchSize, sent - 1);
    }
    if done < n {
      var size := Min(MaxBatchSize, n - done);
      assert w[sent] == Window(done, size);
      match Payload(entries, done, size)
      case Err(e) =>
      case Ok(p) =>
        var more := posted + [BulkBody(p)];
        if respond(sent) == StatusOk {
          if size == MaxBatchSize {
            assert done + size == |more| * MaxBatchSize;
            SequentialFromPosts(entries, more, respond);
            var r := SequentialFrom(entries, |more| * MaxBatchSize, more, respond);
            assert r.posted[..|more|][sent] == r.posted[sent];
          } else {
            assert done + size == n;
          }
        }
    }
  }

  /** The same run answers for its counter: only the last request posted can
      have failed, and the counter moves by whole windows confirmed by a 200. */
  lemma {:induction false} SequentialFromCounter(entries: seq<EntryResult>, posted: seq<BulkBody>, respond: nat -> int)
    requires |posted| * MaxBatchSize <= |entries|
    ensures var r := SequentialFrom(entries, |posted| * MaxBatchSize, posted, respond);
      && |posted| <= |r.posted|
      && r.updated <= |entries|
      && (forall j :: |posted| <= j < |r.posted| - 1 ==> respond(j) == StatusOk)
      && (r.raised.Some? ==>
            && (forall j :: |posted| <= j < |r.posted| ==> respond(j) == StatusOk)
            && r.updated == |r.posted| * MaxBatchSize < |entries|)
      && (r.raised.None? && r.updated < |entries| ==>
            && |r.posted| > |posted|
            && respond(|r.posted| - 1) != StatusOk
            && r.updated == (|r.posted| - 1) * MaxBatchSize)
      && (r.raised.None? && r.updated == |entries| ==>
            && (forall j :: |posted| <= j < |r.posted| ==> respond(j) == StatusOk)
            && |entries| <= |r.posted| * MaxBatchSize
            && (|r.posted| > |posted| ==> (|r.posted| - 1) * MaxBatchSize < |entries|))
    decreases |entries| - |posted| * MaxBatchSize
  {
    var n := |entries|;
    var sent := |posted|;
    var done := sent * MaxBatchSize;
    if done < n {
      var size := Min(MaxBatchSize, n - done);
      match Payload(entries, done, size)
      case Err(e) =>
      case Ok(p) =>
        var more := posted + [BulkBody(p)];
        if respond(sent) == StatusOk {
          if size == MaxBatchSize {
            assert done + size == |more| * MaxBatchSize;
            SequentialFromCounter(entries, more, respond);
          }
        }
    }
  }

  lemma SequentialStart(entries: seq<EntryResult>, respond: nat -> int)
    ensures forall k :: 0 <= k < |SequentialWindows(|entries|)| ==>
      SequentialWindows(|entries|)[k].start + SequentialWindows(|entries|)[k].size <= |entries|
    ensures var r := SequentialFrom(entries, 0, [], respond);
      var w := SequentialWindows(|entries|);
      && |r.posted| <= |w|
      && (forall j :: 0 <= j < |r.posted| ==> Payload(entries, w[j].start, w[j].size) == Ok(r.posted[j].companies))
      && r.updated <= |entries|
      && (forall j :: 0 <= j < |r.posted| - 1 ==> respond(j) == StatusOk)
      && (r.raised.Some? ==> r.updated == |r.posted| * MaxBatchSize < |entries|)
      && (r.raised.None? && r.updated < |entries| ==>
            |r.posted| >= 1 && respond(|r.posted| - 1) != StatusOk && r.updated == (|r.posted| - 1) * MaxBatchSize)
      && (r.raised.None? && r.updated == |entries| ==>
            (forall j :: 0 <= j < |r.posted| ==> respond(j) == StatusOk) && |r.posted| == |w|)
  {
    var none: seq<BulkBody> := [];
    assert |none| * MaxBatchSize == 0;
    SequentialFromPosts(entries, none, respond);
    SequentialFromCounter(entries, none, respond);
    var r := SequentialFrom(entries, 0, [], respond);
    var n := |entries|;
    if r.raised.None? && r.updated == n {
      WindowAt(n, MaxBatchSize, |r.posted|);
      if |r.posted| > 0 {
        WindowAt(n, MaxBatchSize, |r.posted| - 1);
      }
    }
  }

  /** Every request carries the entries of the next window of `range(0, n, 10)`:
      windows of 1..10 rows starting at multiples of ten, contiguous, the last
      the remainder. */
  lemma SequentialPostsWindows(df: Frame, columns: seq<string>, cfIds: Option<seq<int>>, lookup: map<string, int>,
                               respond: nat -> int)
    requires WellFormed(df)
    ensures var r := SequentialUpdate(df, columns, cfIds, lookup, respond);
      var w := SequentialWindows(|df.rows|);
      && |r.posted| <= |w|
      && (forall j :: 0 <= j < |w| ==> w[j].start == j * MaxBatchSize && 1 <= w[j].size <= MaxBatchSize)
      && (forall j :: 0 <= j < |w| - 1 ==> w[j + 1].start == w[j].start + w[j].size)
      && (|w| > 0 ==> w[|w| - 1].start + w[|w| - 1].size == |df.rows|)
      && (|r.posted| > 0 ==> PlanUpdate(df, columns, cfIds, lookup).Ok?)
      && (forall j :: 0 <= j < |r.posted| ==>
            w[j].start + w[j].size <= |df.rows|
            && Payload(RowEntries(df, PlanUpdate(df, columns, cfIds, lookup).value), w[j].start, w[j].size)
               == Ok(r.posted[j].companies))
  {
    WindowsPartition(|df.rows|, MaxBatchSize);
    var plan := PlanUpdate(df, columns, cfIds, lookup);
    if plan.Ok? {
      SequentialStart(RowEntries(df, plan.value), respond);
    }
  }

  /** Fail-fast: only the last request posted can have failed; the counter
      never exceeds the row count, counts only rows of windows answered 200,
      and reaches the row count exactly when every window was posted, the last
      was answered 200 and nothing was raised. */
  lemma SequentialFailFast(df: Frame, columns: seq<string>, cfIds: Option<seq<int>>, lookup: map<string, int>,
                           respond: nat -> int)
    requires WellFormed(df)
    ensures var r := SequentialUpdate(df, columns, cfIds, lookup, respond);
      && r.updated <= |df.rows|
      && (forall j :: 0 <= j < |r.posted| - 1 ==> respond(j) == StatusOk)
      && (r.raised.None? && r.updated < |df.rows| ==>
            |r.posted| >= 1 && respond(|r.posted| - 1) != StatusOk && r.updated == (|r.posted| - 1) * MaxBatchSize)
      && (r.raised.Some? ==> r.updated == |r.posted| * MaxBatchSize)
      && (r.updated == |df.rows| && |df.rows| > 0 <==>
            r.raised.None? && |r.posted| == |SequentialWindows(|df.rows|)| && |r.posted| > 0
            && respond(|r.posted| - 1) == StatusOk)
  {
    var plan := PlanUpdate(df, columns, cfIds, lookup);
    WindowsPartition(|df.rows|, MaxBatchSize);
    if plan.Ok? {
      SequentialStart(RowEntries(df, plan.value), respond);
    }
  }

  /** Every id cell holds an int. */
  predicate IntegerIds(df: Frame)
    requires WellFormed(df) && "id" in df.columns
  {
    forall i :: 0 <= i < |df.rows| ==> df.rows[i]["id"].PyInt?
  }

  /** Distinct integer ids give every row an entry. */
  lemma AllEntriesOk(df: Frame, plan: Plan)
    requires ValidPlan(df, plan) && UniqueIds(df) && IntegerIds(df)
    ensures forall i :: 0 <= i < |df.rows| ==> RowEntries(df, plan)[i].Ok?
  {
    forall i | 0 <= i < |df.rows|
      ensures RowEntries(df, plan)[i].Ok?
    {
      RowEntriesAt(df, plan, i);
      EntryOfIntegerId(df, plan, i, df.rows[i]["id"].i);
    }
  }

  lemma {:induction false} SequentialAllFrom(entries: seq<EntryResult>, done: nat, posted: seq<BulkBody>,
                                             respond: nat -> int)
    requires done <= |entries|
    requires forall i :: 0 <= i < |entries| ==> entries[i].Ok?
    requires forall k :: respond(k) == StatusOk
    ensures SequentialFrom(entries, done, posted, respond).raised.None?
    ensures SequentialFrom(entries, done, posted, respond).updated == |entries|
    decreases |entries| - done
  {
    if done < |entries| {
      var size := Min(MaxBatchSize, |entries| - done);
      PayloadEntries(entries, done, size);
      var p := Payload(entries, done, size).value;
      SequentialAllFrom(entries, done + size, posted + [BulkBody(p)], respond);
    }
  }

  /** With distinct integer ids and an endpoint that answers 200, every row is
      updated, in ceil(n/10) requests, and nothing is raised. */
  lemma SequentialAllAccepted(df: Frame, columns: seq<string>, cfIds: Option<seq<int>>, lookup: map<string, int>,
                              respond: nat -> int)
    requires WellFormed(df)
    requires PlanUpdate(df, columns, cfIds, lookup).Ok? && IntegerIds(df)
    requires forall k :: respond(k) == StatusOk
    ensures var r := SequentialUpdate(df, columns, cfIds, lookup, respond);
      && r.raised.None?
      && r.updated == |df.rows|
      && |r.posted| == (|df.rows| + MaxBatchSize - 1) / MaxBatchSize
  {
    var plan := PlanUpdate(df, columns, cfIds, lookup).value;
    AllEntriesOk(df, plan);
    SequentialAllFrom(RowEntries(df, plan), 0, [], respond);
    SequentialStart(RowEntries(df, plan), respond);
    WindowsPartition(|df.rows|, MaxBatchSize);
  }

  /** Example: three windows, the second answered with an
      error. Exactly the first window's ten rows are counted and the third
      window is never posted; the run still ends with 'All companies updated.'. */
  lemma SecondOfThreeBatchesFails(df: Frame, columns: seq<string>, cfIds: Option<seq<int>>, lookup: map<string, int>,
                                  respond: nat -> int)
    requires WellFormed(df) && 20 < |df.rows| <= 30
    requires PlanUpdate(df, columns, cfIds, lookup).Ok? && IntegerIds(df)
    requires respond(0) == StatusOk && respond(1) != StatusOk
    ensures var r := SequentialUpdate(df, columns, cfIds, lookup, respond);
      r.updated == 10 && |r.posted| == 2 && r.raised.None?
  {
    var plan := PlanUpdate(df, columns, cfIds, lookup).value;
    var entries := RowEntries(df, plan);
    AllEntriesOk(df, plan);
    PayloadEntries(entries, 0, 10);
    PayloadEntries(entries, 10, 10);
    var b0 := BulkBody(Payload(entries, 0, 10).value);
    var b1 := BulkBody(Payload(entries, 10, 10).value);
    assert SequentialFrom(entries, 10, [b0], respond) == SequentialReport([b0, b1], 10, None);
    assert SequentialFrom(entries, 0, [], respond) == SequentialFrom(entries, 10, [b0], respond);
  }

  /** Lines 206-227 of `_bulk_update`, then the batch loop. */
  method BulkUpdate(df: Frame, columns: seq<string>, cfIds: Option<seq<int>>, lookup: map<string, int>,
                    respond: nat -> int) returns (report: SequentialReport)
    requires WellFormed(df)
    ensures report == SequentialUpdate(df, columns, cfIds, lookup, respond)
  {
    var planned := PlanUpdate(df, columns, cfIds, lookup);
    if planned.Err? {
      return SequentialReport([], 0, Some(planned.error));
    }
    report := PostBatches(df, planned.value, respond);
  }

  /** The loop of lines 229-251 over `respond`, with the inner loop of lines
      234-241 in `BuildPayload`. */
  method PostBatches(df: Frame, plan: Plan, respond: nat -> int) returns (report: SequentialReport)
    requires ValidPlan(df, plan)
    ensures report == SequentialFrom(RowEntries(df, plan), 0, [], respond)
  {
    ghost var entries := RowEntries(df, plan);
    var total := |df.rows|;
    var companiesUpdated := 0;
    var posted: seq<BulkBody> := [];
    while companiesUpdated < total
      invariant companiesUpdated <= total
      invariant SequentialFrom(entries, 0, [], respond) == SequentialFrom(entries, companiesUpdated, posted, respond)
      decreases total - companiesUpdated
    {
      var currentBatchSize := Min(MaxBatchSize, total - companiesUpdated);
      var payload := BuildPayload(df, plan, companiesUpdated, currentBatchSize);
      if payload.Err? {
        return SequentialReport(posted, companiesUpdated, Some(payload.error));
      }
      var status := respond(|posted|);
      posted := posted + [BulkBody(payload.value)];
      if status != StatusOk {
        break;
      }
      companiesUpdated := companiesUpdated + currentBatchSize;
    }
    report := SequentialReport(posted, companiesUpdated, None);
  }
}
