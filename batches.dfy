/** The batch planner shared by `_bulk_update` and `bulk_update_async`
    (cu_api/companies.py): the 'id' column check, the custom-field column
    filter, the row windows and the per-company payload. */
module Batches {
  import opened Python
  import opened Config

  /** A DataFrame row: column name -> cell. */
  type Row = map<string, PyVal>

  datatype Frame = Frame(columns: seq<string>, rows: seq<Row>)

  /** Every row has exactly the frame's columns, as in any DataFrame. */
  ghost predicate WellFormed(df: Frame) {
    forall i :: 0 <= i < |df.rows| ==> forall c :: c in df.rows[i] <==> c in df.columns
  }

  /** The exceptions the update paths raise. */
  datatype UpdateError =
    | MissingIdColumn              // ValueError: no 'id' column
    | UnknownColumn(column: string) // KeyError from df[columns + ['id']]
    | DuplicateId                  // ValueError from to_dict(orient='index')
    | BadId(row: nat)              // int() of the row's id raises
    | IdNotFound(id: int)          // KeyError from prepared_data[comp_id]
    | ZeroBatchSize                // ValueError: range() step must not be zero
    | BadRetryAfter(header: string) // ValueError from int(Retry-After)

  // ---------------------------------------------------------------------------
  // Column filtering

  /** `[col for col in columns if col in reverse_cf_lookup]` */
  function KeptColumns(columns: seq<string>, lookup: map<string, int>): (r: seq<string>)
    ensures forall c :: c in r <==> c in columns && c in lookup
    ensures |r| <= |columns|
  {
    if columns == [] then []
    else (if columns[0] in lookup then [columns[0]] else []) + KeptColumns(columns[1..], lookup)
  }

  /** `[reverse_cf_lookup.get(col) for col in columns if col in reverse_cf_lookup]`:
      the i-th id is the id of the i-th kept column. */
  function FieldIds(columns: seq<string>, lookup: map<string, int>): (r: seq<int>)
    ensures |r| == |KeptColumns(columns, lookup)|
    ensures forall i :: 0 <= i < |r| ==> r[i] == lookup[KeptColumns(columns, lookup)[i]]
  {
    if columns == [] then []
    else (if columns[0] in lookup then [lookup[columns[0]]] else []) + FieldIds(columns[1..], lookup)
  }

  /** `[col for col in cols if col not in reverse_cf_lookup]` */
  function Unresolved(cols: seq<string>, lookup: map<string, int>): (r: seq<string>)
    ensures forall c :: c in r <==> c in cols && c !in lookup
  {
    if cols == [] then []
    else (if cols[0] !in lookup then [cols[0]] else []) + Unresolved(cols[1..], lookup)
  }

  /** The filter keeps the columns' relative order: it distributes over concatenation. */
  lemma {:induction false} KeptColumnsAppend(xs: seq<string>, ys: seq<string>, lookup: map<string, int>)
    ensures KeptColumns(xs + ys, lookup) == KeptColumns(xs, lookup) + KeptColumns(ys, lookup)
  {
    if xs != [] {
      assert (xs + ys)[0] == xs[0];
      assert (xs + ys)[1..] == xs[1..] + ys;
      KeptColumnsAppend(xs[1..], ys, lookup);
      var head := if xs[0] in lookup then [xs[0]] else [];
      assert KeptColumns(xs + ys, lookup) == head + KeptColumns(xs[1..] + ys, lookup);
      assert KeptColumns(xs, lookup) == head + KeptColumns(xs[1..], lookup);
    } else {
      assert xs + ys == ys;
    }
  }

  /** As written (line 215): `missing` is computed from the already filtered
      columns, so it names no column. */
  function MissingAsWritten(columns: seq<string>, lookup: map<string, int>): seq<string> {
    Unresolved(KeptColumns(columns, lookup), lookup)
  }

  lemma {:induction false} UnresolvedOfResolved(cols: seq<string>, lookup: map<string, int>)
    requires forall c :: c in cols ==> c in lookup
    ensures Unresolved(cols, lookup) == []
  {
    if cols != [] {
      UnresolvedOfResolved(cols[1..], lookup);
    }
  }

  lemma MissingAsWrittenIsEmpty(columns: seq<string>, lookup: map<string, int>)
    ensures MissingAsWritten(columns, lookup) == []
  {
    UnresolvedOfResolved(KeptColumns(columns, lookup), lookup);
  }

  /** What the warning at lines 215-217 is meant to name: the requested
      columns that have no custom-field id and are dropped. */
  function DroppedColumns(columns: seq<string>, lookup: map<string, int>): (r: seq<string>)
    ensures forall c :: c in r <==> c in columns && c !in KeptColumns(columns, lookup)
  {
    Unresolved(columns, lookup)
  }

  /** A requested column without an id is dropped silently as written, and
      named by the corrected list. */
  lemma DroppedColumnGoesUnreported()
    ensures KeptColumns(["Stage"], map[]) == []
    ensures MissingAsWritten(["Stage"], map[]) == []
    ensures DroppedColumns(["Stage"], map[]) == ["Stage"]
  {
    MissingAsWrittenIsEmpty(["Stage"], map[]);
  }

  // ---------------------------------------------------------------------------
  // Planning: lines 206-220 and 308-318

  /** The columns and field ids to send; `dropped` is what the warning names
      (corrected, see `DroppedColumns`). */
  datatype Plan = Plan(columns: seq<string>, fieldIds: seq<int>, dropped: seq<string>)

  ghost predicate ValidPlan(df: Frame, plan: Plan) {
    && WellFormed(df)
    && "id" in df.columns
    && forall c :: c in plan.columns ==> c in df.columns
  }

  /** The row ids are pairwise distinct, as `to_dict(orient='index')` demands. */
  predicate UniqueIds(df: Frame)
    requires WellFormed(df) && "id" in df.columns
  {
    forall i, j :: 0 <= i < j < |df.rows| ==> df.rows[i]["id"] != df.rows[j]["id"]
  }

  /** The first of cols that is not a column of the frame. */
  function FirstUnknown(cols: seq<string>, present: seq<string>): (r: Option<string>)
    ensures r.None? <==> forall c :: c in cols ==> c in present
    ensures r.Some? ==> r.value in cols && r.value !in present
  {
    if cols == [] then None
    else if cols[0] !in present then Some(cols[0])
    else FirstUnknown(cols[1..], present)
  }

  /** The columns `df[columns + ['id']]` selects besides 'id': all of them when
      the caller passes cf_ids, else only those with a custom-field id. */
  function Selected(columns: seq<string>, cfIds: Option<seq<int>>, lookup: map<string, int>): seq<string> {
    if cfIds.Some? then columns else KeptColumns(columns, lookup)
  }

  /** The checks and lookups before the first request. A missing 'id' column
      is reported whatever the lookup holds. */
  function PlanUpdate(df: Frame, columns: seq<string>, cfIds: Option<seq<int>>, lookup: map<string, int>)
    : (r: Result<Plan, UpdateError>)
    requires WellFormed(df)
    ensures "id" !in df.columns ==> r == Err(MissingIdColumn)
    ensures r.Ok? <==>
      && "id" in df.columns
      && (forall c :: c in Selected(columns, cfIds, lookup) ==> c in df.columns)
      && UniqueIds(df)
    ensures r.Ok? ==> ValidPlan(df, r.value) && r.value.columns == Selected(columns, cfIds, lookup)
    ensures r.Ok? && cfIds.None? ==>
      r.value.fieldIds == FieldIds(columns, lookup) && r.value.dropped == DroppedColumns(columns, lookup)
    ensures r.Ok? && cfIds.Some? ==> r.value.fieldIds == cfIds.value && r.value.dropped == []
  {
    if "id" !in df.columns then Err(MissingIdColumn)
    else
      var plan := match cfIds
        case None => Plan(KeptColumns(columns, lookup), FieldIds(columns, lookup), DroppedColumns(columns, lookup))
        case Some(ids) => Plan(columns, ids, []);
      match FirstUnknown(plan.columns, df.columns)
      case Some(c) => Err(UnknownColumn(c))
      case None => if UniqueIds(df) then Ok(plan) else Err(DuplicateId)
  }

  // ---------------------------------------------------------------------------
  // Windows: range(0, n, step) with df.iloc[start:start + step]

  datatype Window = Window(start: nat, size: nat)

  predicate Covers(w: Window, i: nat) {
    w.start <= i < w.start + w.size
  }

  function WindowsFrom(start: nat, n: nat, step: nat): seq<Window>
    requires step > 0
    decreases n - start
  {
    if start >= n then [] else [Window(start, Min(step, n - start))] + WindowsFrom(start + step, n, step)
  }

  /** The row windows of `range(0, n, step)`, each `iloc[start:start + step]`. */
  function Windows(n: nat, step: nat): seq<Window>
    requires step > 0
  {
    WindowsFrom(0, n, step)
  }

  lemma MulStep(k: nat, step: nat)
    ensures (k + 1) * step == k * step + step
  {
  }

  lemma MulMono(a: nat, b: nat, step: nat)
    requires a <= b
    ensures a * step <= b * step
  {
  }

  /** Window k of `WindowsFrom(start, ...)` starts at start + k*step, and the
      count c of windows is the least with n - start <= c*step. */
  lemma {:induction false} WindowsFromShape(start: nat, n: nat, step: nat)
    requires step > 0
    ensures start >= n ==> |WindowsFrom(start, n, step)| == 0
    ensures start < n ==>
      && |WindowsFrom(start, n, step)| >= 1
      && (|WindowsFrom(start, n, step)| - 1) * step < n - start <= |WindowsFrom(start, n, step)| * step
    ensures forall k :: 0 <= k < |WindowsFrom(start, n, step)| ==>
      WindowsFrom(start, n, step)[k] == Window(start + k * step, Min(step, n - (start + k * step)))
  {
    WindowsFromCount(start, n, step);
    WindowsFromAt(start, n, step);
  }

  lemma {:induction false} WindowsFromCount(start: nat, n: nat, step: nat)
    requires step > 0
    ensures start >= n ==> |WindowsFrom(start, n, step)| == 0
    ensures start < n ==>
      && |WindowsFrom(start, n, step)| >= 1
      && (|WindowsFrom(start, n, step)| - 1) * step < n - start <= |WindowsFrom(start, n, step)| * step
    decreases n - start
  {
    if start < n {
      var rest := WindowsFrom(start + step, n, step);
      WindowsFromCount(start + step, n, step);
      assert |WindowsFrom(start, n, step)| == 1 + |rest|;
      var m := |rest|;
      MulStep(m, step);
      if start + step < n {
        MulStep(m - 1, step);
      }
    }
  }

  lemma {:induction false} WindowsFromAt(start: nat, n: nat, step: nat)
    requires step > 0
    ensures forall k :: 0 <= k < |WindowsFrom(start, n, step)| ==>
      start + k * step < n && WindowsFrom(start, n, step)[k] == Window(start + k * step, Min(step, n - (start + k * step)))
    decreases n - start
  {
    if start < n {
      var w := WindowsFrom(start, n, step);
      var rest := WindowsFrom(start + step, n, step);
      WindowsFromAt(start + step, n, step);
      assert w == [Window(start, Min(step, n - start))] + rest;
      forall k | 0 <= k < |w|
        ensures start + k * step < n && w[k] == Window(start + k * step, Min(step, n - (start + k * step)))
      {
        if k == 0 {
          assert k * step == 0;
        } else {
          assert w[k] == rest[k - 1];
          MulStep(k - 1, step);
        }
      }
    }
  }

  lemma WindowIndex(i: nat, j: nat, step: nat)
    requires step > 0
    ensures j * step <= i < j * step + step <==> j == i / step
  {
    var q := i / step;
    assert i == q * step + i % step;
    if j < q {
      MulStep(j, step);
      MulMono(j + 1, q, step);
    } else if j > q {
      MulStep(q, step);
      MulMono(q + 1, j, step);
    }
  }

  /** c = ceil(n / step) when c - 1 windows fall short of n and c do not. */
  lemma CeilDiv(n: nat, step: nat, c: nat)
    requires step > 0 && c >= 1
    requires (c - 1) * step < n <= c * step
    ensures c == (n + step - 1) / step
  {
    MulStep(c - 1, step);
    WindowIndex(n + step - 1, c, step);
  }

  /** `range(0, n, step)` cuts the rows into ceil(n/step) contiguous windows of
      1..step rows each, the last one the remainder, and every row lies in
      exactly one window: the one numbered i / step. */
  lemma WindowsPartition(n: nat, step: nat)
    requires step > 0
    ensures |Windows(n, step)| == (n + step - 1) / step
    ensures |Windows(n, step)| == 0 <==> n == 0
    ensures forall j :: 0 <= j < |Windows(n, step)| ==>
      && Windows(n, step)[j].start == j * step
      && Windows(n, step)[j].size == Min(step, n - j * step)
      && 1 <= Windows(n, step)[j].size <= step
    ensures forall j :: 0 <= j < |Windows(n, step)| - 1 ==>
      Windows(n, step)[j + 1].start == Windows(n, step)[j].start + Windows(n, step)[j].size
    ensures |Windows(n, step)| > 0 ==>
      Windows(n, step)[|Windows(n, step)| - 1].start + Windows(n, step)[|Windows(n, step)| - 1].size == n
    ensures forall i, j :: 0 <= i < n && 0 <= j < |Windows(n, step)| ==>
      (Covers(Windows(n, step)[j], i) <==> j == i / step)
  {
    var w := Windows(n, step);
    WindowsFromShape(0, n, step);
    var c := |w|;
    if n == 0 {
      WindowIndex(step - 1, 0, step);
    } else {
      CeilDiv(n, step, c);
      MulStep(c - 1, step);
    }
    forall j | 0 <= j < c
      ensures w[j].start == j * step && w[j].size == Min(step, n - j * step) && 1 <= w[j].size <= step
    {
      MulMono(j, c - 1, step);
    }
    forall j | 0 <= j < c - 1
      ensures w[j + 1].start == w[j].start + w[j].size
    {
      MulStep(j, step);
      MulMono(j + 1, c - 1, step);
    }
    forall i, j | 0 <= i < n && 0 <= j < c
      ensures Covers(w[j], i) <==> j == i / step
    {
      WindowIndex(i, j, step);
    }
  }

  /** Window k exists exactly when k*step < n, and is then rows
      k*step .. min(n, (k+1)*step) - 1. */
  lemma WindowAt(n: nat, step: nat, k: nat)
    requires step > 0
    ensures k < |Windows(n, step)| <==> k * step < n
    ensures k < |Windows(n, step)| ==> Windows(n, step)[k] == Window(k * step, Min(step, n - k * step))
  {
    WindowsFromShape(0, n, step);
    var c := |Windows(n, step)|;
    if k < c {
      MulMono(k, c - 1, step);
    } else {
      MulMono(c, k, step);
    }
  }

  /** Every window lies inside the n rows. */
  lemma WindowsFit(n: nat, step: nat)
    requires step > 0
    ensures forall k :: 0 <= k < |Windows(n, step)| ==> Windows(n, step)[k].start + Windows(n, step)[k].size <= n
  {
    WindowsFromShape(0, n, step);
  }

  /** Example: 25 rows in windows of 10 are 10, 10 and 5 rows. */
  lemma TwentyFiveRowsInWindowsOfTen()
    ensures Windows(25, 10) == [Window(0, 10), Window(10, 10), Window(20, 5)]
  {
    assert WindowsFrom(30, 25, 10) == [];
    assert WindowsFrom(20, 25, 10) == [Window(20, 5)];
    assert WindowsFrom(10, 25, 10) == [Window(10, 10), Window(20, 5)];
  }

  // ---------------------------------------------------------------------------
  // Payload: lines 234-243 and 328-334

  /** One entry of the 'companies' list: {"id": id, "custom_fields": [...]}. */
  datatype CompanyUpdate = CompanyUpdate(id: int, customFields: seq<CustomFieldValue>)

  /** The request body `{"companies": payload}`. */
  datatype BulkBody = BulkBody(companies: seq<CompanyUpdate>)

  /** `int(x)` on an id cell; `None` where Python raises. */
  function IntOf(v: PyVal): Option<int> {
    match v
    case PyInt(i) => Some(i)
    case PyStr(s) => ParseInt(s)
    case _ => None
  }

  /** The position of the row whose id cell equals key: `prepared_data[key]`. */
  function IndexOfId(rows: seq<Row>, key: PyVal): (r: Option<nat>)
    requires forall i :: 0 <= i < |rows| ==> "id" in rows[i]
    ensures r.Some? ==> r.value < |rows| && rows[r.value]["id"] == key
    ensures r.None? ==> forall i :: 0 <= i < |rows| ==> rows[i]["id"] != key
  {
    if rows == [] then None
    else if rows[0]["id"] == key then Some(0)
    else match IndexOfId(rows[1..], key)
      case None => None
      case Some(k) => Some(k + 1)
  }

  /** `[{'custom_field_definition_id': cf_id, 'value': row[col]} for cf_id, col in zip(cf_ids, columns)]` */
  function FieldValues(ids: seq<int>, cols: seq<string>, row: Row): (r: seq<CustomFieldValue>)
    requires forall c :: c in cols ==> c in row
    ensures |r| == Min(|ids|, |cols|)
    ensures forall i :: 0 <= i < |r| ==> r[i] == CustomFieldValue(ids[i], row[cols[i]])
  {
    seq(Min(|ids|, |cols|), i requires 0 <= i < Min(|ids|, |cols|) => CustomFieldValue(ids[i], row[cols[i]]))
  }

  /** The payload entry of row idx: its id through `int()`, then the values of
      the row that `prepared_data` holds under that id. The comprehension looks
      `prepared_data[comp_id]` up once per zipped pair, so with no pair there is
      no lookup and an id that `prepared_data` lacks raises nothing. */
  function Entry(df: Frame, plan: Plan, idx: nat): (r: Result<CompanyUpdate, UpdateError>)
    requires ValidPlan(df, plan) && idx < |df.rows|
    ensures IntOf(df.rows[idx]["id"]).None? <==> r == Err(BadId(idx))
    ensures r.Ok? ==> (r.value.id == IntOf(df.rows[idx]["id"]).value
                       && |r.value.customFields| == Min(|plan.fieldIds|, |plan.columns|))
    ensures r.Ok? ==> (exists j :: (0 <= j < |df.rows|
                                   && (Min(|plan.fieldIds|, |plan.columns|) > 0 ==> df.rows[j]["id"] == PyInt(r.value.id))
                                   && r.value.customFields == FieldValues(plan.fieldIds, plan.columns, df.rows[j])))
    ensures (r.Err? && r != Err(BadId(idx))) <==>
      (IntOf(df.rows[idx]["id"]).Some? && Min(|plan.fieldIds|, |plan.columns|) > 0
       && forall j :: 0 <= j < |df.rows| ==> df.rows[j]["id"] != PyInt(IntOf(df.rows[idx]["id"]).value))
    ensures r.Err? && r != Err(BadId(idx)) ==> r == Err(IdNotFound(IntOf(df.rows[idx]["id"]).value))
  {
    match IntOf(df.rows[idx]["id"])
    case None => Err(BadId(idx))
    case Some(cid) =>
      if Min(|plan.fieldIds|, |plan.columns|) == 0 then
        Ok(CompanyUpdate(cid, FieldValues(plan.fieldIds, plan.columns, df.rows[idx])))
      else
        match IndexOfId(df.rows, PyInt(cid))
        case None => Err(IdNotFound(cid))
        case Some(j) => Ok(CompanyUpdate(cid, FieldValues(plan.fieldIds, plan.columns, df.rows[j])))
  }

  /** With no (field id, column) pair, every row whose id `int()` accepts gives
      `{"id": cid, "custom_fields": []}`, even when no row's id cell is that int
      (a string id such as "101"). */
  lemma EntryWithoutPairs(df: Frame, plan: Plan, idx: nat)
    requires ValidPlan(df, plan) && idx < |df.rows|
    requires Min(|plan.fieldIds|, |plan.columns|) == 0
    ensures IntOf(df.rows[idx]["id"]).Some? <==> Entry(df, plan, idx).Ok?
    ensures Entry(df, plan, idx).Ok? ==> Entry(df, plan, idx).value == CompanyUpdate(IntOf(df.rows[idx]["id"]).value, [])
  {
    if IntOf(df.rows[idx]["id"]).Some? {
      assert FieldValues(plan.fieldIds, plan.columns, df.rows[idx]) == [];
    }
  }

  /** Integer ids that are pairwise distinct make every entry well defined:
      its id is the row's id and its values are that row's cells, one per
      zipped (field id, column) pair, in column order. */
  lemma EntryOfIntegerId(df: Frame, plan: Plan, idx: nat, cid: int)
    requires ValidPlan(df, plan) && UniqueIds(df) && idx < |df.rows|
    requires df.rows[idx]["id"] == PyInt(cid)
    ensures Entry(df, plan, idx) == Ok(CompanyUpdate(cid, FieldValues(plan.fieldIds, plan.columns, df.rows[idx])))
    ensures forall i :: 0 <= i < Min(|plan.fieldIds|, |plan.columns|) ==>
      Entry(df, plan, idx).value.customFields[i] == CustomFieldValue(plan.fieldIds[i], df.rows[idx][plan.columns[i]])
  {
    assert IndexOfId(df.rows, PyInt(cid)).Some?;
  }

  type EntryResult = Result<CompanyUpdate, UpdateError>

  /** The entries of the first k rows, one per row, in row order. */
  function Entries(df: Frame, plan: Plan, k: nat): (r: seq<EntryResult>)
    requires ValidPlan(df, plan) && k <= |df.rows|
    ensures |r| == k
  {
    if k == 0 then [] else Entries(df, plan, k - 1) + [Entry(df, plan, k - 1)]
  }

  /** The entry of every row of the frame. */
  function RowEntries(df: Frame, plan: Plan): (r: seq<EntryResult>)
    requires ValidPlan(df, plan)
    ensures |r| == |df.rows|
  {
    Entries(df, plan, |df.rows|)
  }

  lemma {:induction false} EntriesAt(df: Frame, plan: Plan, k: nat, i: nat)
    requires ValidPlan(df, plan) && i < k <= |df.rows|
    ensures Entries(df, plan, k)[i] == Entry(df, plan, i)
  {
    if i < k - 1 {
      EntriesAt(df, plan, k - 1, i);
    }
  }

  lemma RowEntriesAt(df: Frame, plan: Plan, i: nat)
    requires ValidPlan(df, plan) && i < |df.rows|
    ensures RowEntries(df, plan)[i] == Entry(df, plan, i)
  {
    EntriesAt(df, plan, |df.rows|, i);
  }

  /** The entries start .. start+count-1 collected into one payload, or the
      first error among them. */
  function Payload(entries: seq<EntryResult>, start: nat, count: nat): (r: Result<seq<CompanyUpdate>, UpdateError>)
    requires start + count <= |entries|
    ensures r.Ok? ==> |r.value| == count
    decreases count
  {
    if count == 0 then Ok([])
    else match Payload(entries, start, count - 1)
      case Err(e) => Err(e)
      case Ok(p) =>
        match entries[start + count - 1]
        case Err(e) => Err(e)
        case Ok(x) => Ok(p + [x])
  }

  /** A payload is built exactly when every entry of its window is, it lists
      those entries in row order, and otherwise fails with the first error. */
  lemma {:induction false} PayloadEntries(entries: seq<EntryResult>, start: nat, count: nat)
    requires start + count <= |entries|
    ensures Payload(entries, start, count).Ok? <==>
      forall idx :: start <= idx < start + count ==> entries[idx].Ok?
    ensures Payload(entries, start, count).Ok? ==>
      forall idx :: start <= idx < start + count ==> entries[idx] == Ok(Payload(entries, start, count).value[idx - start])
    ensures Payload(entries, start, count).Err? ==>
      exists idx :: start <= idx < start + count && entries[idx] == Err(Payload(entries, start, count).error)
        && forall k :: start <= k < idx ==> entries[k].Ok?
    decreases count
  {
    if count > 0 {
      PayloadEntries(entries, start, count - 1);
      var last := start + count - 1;
      var prev := Payload(entries, start, count - 1);
      var r := Payload(entries, start, count);
      if prev.Ok? && entries[last].Ok? {
        assert r.value == prev.value + [entries[last].value];
        forall idx | start <= idx < start + count
          ensures entries[idx] == Ok(r.value[idx - start])
        {
          if idx < last {
            assert r.value[idx - start] == prev.value[idx - start];
          }
        }
      }
    }
  }

  /** The first error among the entries is the error of every longer payload. */
  lemma {:induction false} PayloadErrorPersists(entries: seq<EntryResult>, start: nat, count: nat, longer: nat)
    requires count <= longer && start + longer <= |entries|
    requires Payload(entries, start, count).Err?
    ensures Payload(entries, start, longer) == Payload(entries, start, count)
    decreases longer
  {
    if longer > count {
      PayloadErrorPersists(entries, start, count, longer - 1);
    }
  }

  /** The loop that fills `payload` for one window, entry by entry; an id that
      cannot be converted or found raises part-way. */
  method BuildPayload(df: Frame, plan: Plan, start: nat, count: nat) returns (r: Result<seq<CompanyUpdate>, UpdateError>)
    requires ValidPlan(df, plan) && start + count <= |df.rows|
    ensures r == Payload(RowEntries(df, plan), start, count)
  {
    ghost var entries := RowEntries(df, plan);
    var payload := [];
    for idx := start to start + count
      invariant Payload(entries, start, idx - start) == Ok(payload)
    {
      var entry := Entry(df, plan, idx);
      RowEntriesAt(df, plan, idx);
      if entry.Err? {
        PayloadErrorPersists(entries, start, idx - start + 1, count);
        return Err(entry.error);
      }
      payload := payload + [entry.value];
    }
    return Ok(payload);
  }
}
