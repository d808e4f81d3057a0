/** The `Query` class and `_process_query` (cu_api/query.py:74-244): a
    dict-like object that keeps the raw search inputs next to their resolved
    form, and the split of the resolved form into native search parameters
    and custom field parameters. */
module QueryObject {
  import opened Python
  import opened Config
  import opened QueryResolve

  /** The list at lines 145-146: keys that Copper searches on directly. */
  const NativeNames: seq<string> := ["id", "name", "address", "assignee_id", "contact_type_id",
                                     "phone_number", "city", "state", "postal_code", "email_domains"]

  predicate IsNative(key: PyVal) {
    key.PyStr? && key.s in NativeNames
  }

  /** The two spellings that set `_custom_fields` (line 155). */
  predicate IsCustomFieldsKey(key: PyVal) {
    key == PyStr("Custom Fields") || key == PyStr("Custom_Fields")
  }

  /** A list of option ids as a Python list of ints. */
  function IntList(ids: seq<int>): (r: seq<PyVal>)
    ensures |r| == |ids| && forall i :: 0 <= i < |ids| ==> r[i] == PyInt(ids[i])
  {
    seq(|ids|, i requires 0 <= i < |ids| => PyInt(ids[i]))
  }

  // ---------------------------------------------------------------------------
  // _process_input (lines 142-152)

  /** The key and value `_process_input` stores in `_processed_data`, with
      lines 147-148 calling `_check_key` and `_check_value`: a native key
      keeps its value unchanged; any other key is stored under its field id,
      with the field's option ids as its value, or raises. */
  function Processed(key: PyVal, value: PyVal, snap: Snapshot): (r: Result<(PyVal, PyVal), QueryError>)
    ensures IsNative(key) ==> r == Ok((key, value))
    ensures !IsNative(key) ==> (r.Ok? <==> CheckKey(key, snap).Ok? && ValueItems(value).Ok?)
    ensures !IsNative(key) && CheckKey(key, snap).Err? ==> r == Err(InvalidKey(key))
    ensures !IsNative(key) && r.Ok? ==>
      && r.value.0 == PyInt(CheckKey(key, snap).value)
      && r.value.1.PyList?
      && Distinct(r.value.1.items)
      && forall v :: v in r.value.1.items ==> v.PyInt? && IsOptionId(snap.options(CheckKey(key, snap).value), v.i)
  {
    if IsNative(key) then Ok((key, value))
    else
      match CheckKey(key, snap)
      case Err(e) => Err(e)
      case Ok(id) =>
        match CheckedValue(id, value, snap)
        case Err(e) => Err(e)
        case Ok(ids) =>
          var items := IntList(ids);
          assert Distinct(items) by {
            forall i, j | 0 <= i < j < |items| ensures items[i] != items[j] {
              assert ids[i] != ids[j];
            }
          }
          assert forall v :: v in items ==> v.PyInt? && IsOptionId(snap.options(id), v.i) by {
            forall v | v in items ensures v.PyInt? && IsOptionId(snap.options(id), v.i) {
              var i :| 0 <= i < |items| && items[i] == v;
              assert ids[i] in ids;
            }
          }
          Ok((PyInt(id), PyList(items)))
  }

  /** `_process_input` as written: lines 147-148 call `check_key` and
      `check_value`, names the module never defines, so any key outside the
      native list raises NameError before anything is stored. */
  function ProcessedAsWritten(key: PyVal, value: PyVal, snap: Snapshot): (r: Result<(PyVal, PyVal), QueryError>)
    ensures IsNative(key) ==> r == Processed(key, value, snap)
    ensures !IsNative(key) ==> r == Err(NameError("check_key"))
  {
    if IsNative(key) then Ok((key, value)) else Err(NameError("check_key"))
  }

  /** As written, a custom field key is refused even when it names a known
      field and a known option, which the corrected processing stores under
      the field's id. */
  lemma CustomKeyRaisesAsWritten(snap: Snapshot)
    requires snap.cfIdLookup == map["Region" := 5]
    requires snap.customFieldsDict == map[5 := "Region"]
    requires snap.options(5) == [(50, "West")]
    ensures ProcessedAsWritten(PyStr("Region"), PyStr("West"), snap) == Err(NameError("check_key"))
    ensures Processed(PyStr("Region"), PyStr("West"), snap) == Ok((PyInt(5), PyList([PyInt(50)])))
  {
    RegionWest(snap);
  }

  /** The one resolution the examples below rely on. */
  lemma RegionWest(snap: Snapshot)
    requires snap.cfIdLookup == map["Region" := 5]
    requires snap.options(5) == [(50, "West")]
    ensures Processed(PyStr("Region"), PyStr("West"), snap) == Ok((PyInt(5), PyList([PyInt(50)])))
  {
    assert CheckKey(PyStr("Region"), snap) == Ok(5);
    assert CheckedValue(5, PyStr("West"), snap) == Ok([50]) by {
      WestResolves(snap.options(5));
      assert Dedup([50]) == [50] by {
        assert [50][..0] == [];
      }
    }
    assert IntList([50]) == [PyInt(50)];
    assert !IsNative(PyStr("Region"));
  }

  lemma WestResolves(options: seq<(int, string)>)
    requires options == [(50, "West")]
    ensures Resolved([PyStr("West")], options) == [50]
  {
    assert options[0] == (50, "West");
    assert HasName(options, "West");
    assert FindKeyByValue(options, "West") == Some(50);
    assert [PyStr("West")][..0] == [];
  }

  /** The keys `_processed_data` may hold: a native name that was recorded
      in `_native_fields`, or a field id. */
  predicate StoredKey(key: PyVal, nativeFields: seq<string>) {
    (key.PyStr? && key.s in nativeFields) || key.PyInt?
  }

  /** `Query`: the raw inputs `_data`, their resolved form `_processed_data`,
      the native keys set so far `_native_fields`, and `_custom_fields`.
      `ProcessInput` and `SetItem`, and everything built on them, use the
      corrected `_process_input` (`Processed`); `ProcessInputAsWritten` and
      `SetItemAsWritten` are the code as written, where a custom field key
      raises NameError. */
  class Query {
    var data: Dict<PyVal, PyVal>
    var processed: Dict<PyVal, PyVal>
    var nativeFields: seq<string>
    var customFields: PyVal

    /** Both dicts are genuine dicts; `_native_fields` lists native names only;
        every native key in `_processed_data` was recorded in `_native_fields`
        and every other key there is a field id. */
    ghost predicate Valid()
      reads this
    {
      && data.Valid() && processed.Valid()
      && (forall s :: s in nativeFields ==> s in NativeNames)
      && (forall k :: k in processed.vals ==> StoredKey(k, nativeFields))
    }

    /** `__init__` (lines 136-140). */
    constructor ()
      ensures Valid()
      ensures data.keys == [] && processed.keys == [] && nativeFields == [] && customFields == PyList([])
    {
      data := EmptyDict();
      processed := EmptyDict();
      nativeFields := [];
      customFields := PyList([]);
    }

    /** `_process_input(key, value)`: store the resolved pair, recording a
        native key in `_native_fields` (again, if it was set before); on an
        error nothing changes. */
    method ProcessInput(key: PyVal, value: PyVal, snap: Snapshot) returns (err: Option<QueryError>)
      requires Valid()
      modifies this
      ensures Valid()
      ensures data == old(data) && customFields == old(customFields)
      ensures Processed(key, value, snap).Err? ==>
        err == Some(Processed(key, value, snap).error) && processed == old(processed) && nativeFields == old(nativeFields)
      ensures Processed(key, value, snap).Ok? ==>
        && err.None?
        && processed == old(processed).Put(Processed(key, value, snap).value.0, Processed(key, value, snap).value.1)
        && nativeFields == old(nativeFields) + (if IsNative(key) then [key.s] else [])
    {
      if !IsNative(key) {
        var id := CheckKey(key, snap);
        if id.Err? {
          return Some(id.error);
        }
        var ids := CheckValue(id.value, value, snap);
        if ids.Err? {
          return Some(ids.error);
        }
        processed := processed.Put(PyInt(id.value), PyList(IntList(ids.value)));
      } else {
        nativeFields := nativeFields + [key.s];
        processed := processed.Put(key, value);
      }
      return None;
    }

    /** `__setitem__(key, value)` (lines 154-159): the 'Custom Fields' key only
        sets `_custom_fields`; any other key is stored raw in `_data` (a list
        key raises TypeError there) and then processed. */
    method SetItem(key: PyVal, value: PyVal, snap: Snapshot) returns (err: Option<QueryError>)
      requires Valid()
      modifies this
      ensures Valid()
      ensures IsCustomFieldsKey(key) ==>
        && err.None? && customFields == value
        && data == old(data) && processed == old(processed) && nativeFields == old(nativeFields)
      ensures !IsCustomFieldsKey(key) && !Hashable(key) ==>
        && err == Some(Unhashable(key)) && customFields == old(customFields)
        && data == old(data) && processed == old(processed) && nativeFields == old(nativeFields)
      ensures !IsCustomFieldsKey(key) && Hashable(key) ==>
        && customFields == old(customFields)
        && data == old(data).Put(key, value)
        && (Processed(key, value, snap).Err? ==>
              err == Some(Processed(key, value, snap).error) && processed == old(processed) && nativeFields == old(nativeFields))
        && (Processed(key, value, snap).Ok? ==>
              && err.None?
              && processed == old(processed).Put(Processed(key, value, snap).value.0, Processed(key, value, snap).value.1)
              && nativeFields == old(nativeFields) + (if IsNative(key) then [key.s] else []))
    {
      if IsCustomFieldsKey(key) {
        customFields := value;
        return None;
      }
      if !Hashable(key) {
        return Some(Unhashable(key));
      }
      data := data.Put(key, value);
      err := ProcessInput(key, value, snap);
    }

    /** `_process_input(key, value)` as written: a native key is stored as
        in `ProcessInput`; any other key raises NameError at line 147 and
        changes nothing. */
    method ProcessInputAsWritten(key: PyVal, value: PyVal, snap: Snapshot) returns (err: Option<QueryError>)
      requires Valid()
      modifies this
      ensures Valid()
      ensures data == old(data) && customFields == old(customFields)
      ensures !IsNative(key) ==>
        err == Some(NameError("check_key")) && processed == old(processed) && nativeFields == old(nativeFields)
      ensures IsNative(key) ==>
        err.None? && processed == old(processed).Put(key, value) && nativeFields == old(nativeFields) + [key.s]
    {
      var r := ProcessedAsWritten(key, value, snap);
      if r.Err? {
        return Some(r.error);
      }
      nativeFields := nativeFields + [key.s];
      processed := processed.Put(key, value);
      return None;
    }

    /** `__setitem__(key, value)` as written: a custom field key is stored
        raw in `_data` at line 158, and then `_process_input` raises
        NameError, so `_processed_data` never holds a field id. */
    method SetItemAsWritten(key: PyVal, value: PyVal, snap: Snapshot) returns (err: Option<QueryError>)
      requires Valid()
      modifies this
      ensures Valid()
      ensures IsCustomFieldsKey(key) ==>
        && err.None? && customFields == value
        && data == old(data) && processed == old(processed) && nativeFields == old(nativeFields)
      ensures !IsCustomFieldsKey(key) && !Hashable(key) ==>
        && err == Some(Unhashable(key)) && customFields == old(customFields)
        && data == old(data) && processed == old(processed) && nativeFields == old(nativeFields)
      ensures !IsCustomFieldsKey(key) && Hashable(key) && !IsNative(key) ==>
        && err == Some(NameError("check_key")) && customFields == old(customFields)
        && data == old(data).Put(key, value) && processed == old(processed) && nativeFields == old(nativeFields)
      ensures IsNative(key) ==>
        && err.None? && customFields == old(customFields)
        && data == old(data).Put(key, value)
        && processed == old(processed).Put(key, value) && nativeFields == old(nativeFields) + [key.s]
      ensures (forall k :: k in old(processed.vals) ==> !k.PyInt?) ==> forall k :: k in processed.vals ==> !k.PyInt?
    {
      if IsCustomFieldsKey(key) {
        customFields := value;
        return None;
      }
      if !Hashable(key) {
        return Some(Unhashable(key));
      }
      data := data.Put(key, value);
      err := ProcessInputAsWritten(key, value, snap);
    }

    /** `__getitem__(key)` (lines 161-167): the raw input first, then the
        processed value, else KeyError. */
    method GetItem(key: PyVal) returns (r: Result<PyVal, QueryError>)
      ensures !Hashable(key) ==> r == Err(Unhashable(key))
      ensures Hashable(key) && key in data.vals ==> r == Ok(data.vals[key])
      ensures Hashable(key) && key !in data.vals && key in processed.vals ==> r == Ok(processed.vals[key])
      ensures Hashable(key) && key !in data.vals && key !in processed.vals ==> r == Err(KeyNotFound(key))
    {
      if !Hashable(key) {
        return Err(Unhashable(key));
      }
      if key in data.vals {
        return Ok(data.vals[key]);
      } else if key in processed.vals {
        return Ok(processed.vals[key]);
      }
      return Err(KeyNotFound(key));
    }

    /** `get_input(key, default)` (lines 169-171). */
    method GetInput(key: PyVal, default: PyVal) returns (r: Result<PyVal, QueryError>)
      ensures !Hashable(key) ==> r == Err(Unhashable(key))
      ensures Hashable(key) ==> r == Ok(if key in data.vals then data.vals[key] else default)
    {
      if !Hashable(key) {
        return Err(Unhashable(key));
      }
      return Ok(data.Get(key, default));
    }

    /** `get_output(key, default)` (lines 173-175). */
    method GetOutput(key: PyVal, default: PyVal) returns (r: Result<PyVal, QueryError>)
      ensures !Hashable(key) ==> r == Err(Unhashable(key))
      ensures Hashable(key) ==> r == Ok(if key in processed.vals then processed.vals[key] else default)
    {
      if !Hashable(key) {
        return Err(Unhashable(key));
      }
      return Ok(processed.Get(key, default));
    }

    /** `__delitem__(key)` (lines 177-181): remove the key from whichever dict
        holds it; an absent key is no error, and `_native_fields` is never
        touched. */
    method DelItem(key: PyVal) returns (err: Option<QueryError>)
      requires Valid()
      modifies this
      ensures Valid()
      ensures nativeFields == old(nativeFields) && customFields == old(customFields)
      ensures !Hashable(key) ==> err == Some(Unhashable(key)) && data == old(data) && processed == old(processed)
      ensures Hashable(key) ==> err.None?
      ensures Hashable(key) ==> data == if key in old(data.vals) then old(data).Remove(key) else old(data)
      ensures Hashable(key) ==> processed == if key in old(processed.vals) then old(processed).Remove(key) else old(processed)
    {
      if !Hashable(key) {
        return Some(Unhashable(key));
      }
      if key in data.vals {
        data := data.Remove(key);
      }
      if key in processed.vals {
        processed := processed.Remove(key);
      }
      return None;
    }

    /** `__contains__(key)` (lines 183-184): in either dict. */
    method Contains(key: PyVal) returns (r: Result<bool, QueryError>)
      ensures !Hashable(key) ==> r == Err(Unhashable(key))
      ensures Hashable(key) ==> r.Ok? && (r.value <==> key in data.vals || key in processed.vals)
    {
      if !Hashable(key) {
        return Err(Unhashable(key));
      }
      return Ok(key in data.vals || key in processed.vals);
    }

    /** `keys()` (lines 198-199): the processed keys in insertion order. */
    method Keys() returns (r: seq<PyVal>)
      requires Valid()
      ensures Distinct(r)
      ensures forall k :: k in r <==> k in processed.vals
      ensures r == processed.keys
    {
      return processed.keys;
    }
  }

  // ---------------------------------------------------------------------------
  // _process_query (lines 209-244)

  /** One `{"custom_field_definition_id": id, "value": output}` parameter. */
  datatype CfParam = CfParam(definitionId: PyVal, value: PyVal)

  /** `list.remove(x)`: drop the first occurrence, `None` for ValueError. */
  function RemoveFirst(xs: seq<PyVal>, x: PyVal): (r: Option<seq<PyVal>>)
    ensures r.Some? <==> x in xs
    ensures r.Some? ==> multiset(r.value) == multiset(xs) - multiset{x}
  {
    if xs == [] then None
    else if xs[0] == x then
      assert xs == [xs[0]] + xs[1..];
      Some(xs[1..])
    else
      match RemoveFirst(xs[1..], x)
      case None => None
      case Some(rest) =>
        assert xs == [xs[0]] + xs[1..];
        Some([xs[0]] + rest)
  }

  /** `xs.index(x)`: the position of the first occurrence of x. */
  function FirstIndex(xs: seq<PyVal>, x: PyVal): (r: nat)
    requires x in xs
    ensures r < |xs| && xs[r] == x
    ensures forall i :: 0 <= i < r ==> xs[i] != x
  {
    if xs[0] == x then 0 else 1 + FirstIndex(xs[1..], x)
  }

  /** `list.remove(x)` takes out the first occurrence of x and keeps the
      order of everything else. */
  lemma {:induction false} RemoveFirstOrder(xs: seq<PyVal>, x: PyVal)
    requires x in xs
    ensures RemoveFirst(xs, x) == Some(xs[..FirstIndex(xs, x)] + xs[FirstIndex(xs, x) + 1..])
  {
    if xs[0] == x {
      RemoveFirstHead(xs, x);
    } else {
      var k := FirstIndex(xs[1..], x);
      var t := xs[1..][..k] + xs[1..][k + 1..];
      assert RemoveFirst(xs, x) == Some([xs[0]] + t) by {
        RemoveFirstCons(xs, x);
        RemoveFirstOrder(xs[1..], x);
      }
      assert FirstIndex(xs, x) == k + 1 by {
        RemoveFirstCons(xs, x);
      }
      assert [xs[0]] + t == xs[..k + 1] + xs[k + 1 + 1..] by {
        SpliceCons(xs, k);
      }
    }
  }

  lemma RemoveFirstHead(xs: seq<PyVal>, x: PyVal)
    requires xs != [] && xs[0] == x
    ensures FirstIndex(xs, x) == 0
    ensures RemoveFirst(xs, x) == Some(xs[..0] + xs[0 + 1..])
  {
    assert xs[..0] + xs[0 + 1..] == xs[1..];
  }

  lemma RemoveFirstCons(xs: seq<PyVal>, x: PyVal)
    requires x in xs && xs[0] != x
    ensures x in xs[1..] && FirstIndex(xs, x) == 1 + FirstIndex(xs[1..], x)
    ensures RemoveFirst(xs, x) == Some([xs[0]] + RemoveFirst(xs[1..], x).value)
  {
    assert xs == [xs[0]] + xs[1..];
  }

  lemma SpliceCons(xs: seq<PyVal>, k: nat)
    requires k + 1 < |xs|
    ensures [xs[0]] + (xs[1..][..k] + xs[1..][k + 1..]) == xs[..k + 1] + xs[k + 2..]
  {
    assert xs[..k + 1] == [xs[0]] + xs[1..][..k];
    assert xs[k + 2..] == xs[1..][k + 1..];
  }

  /** `list_non_native` after removing the first i native fields, or the
      ValueError of the first one that is not there. */
  function NonNative(keys: seq<PyVal>, natives: seq<string>): Result<seq<PyVal>, QueryError> {
    if natives == [] then Ok(keys)
    else
      var last := natives[|natives| - 1];
      match NonNative(keys, natives[..|natives| - 1])
      case Err(e) => Err(e)
      case Ok(rest) =>
        match RemoveFirst(rest, PyStr(last))
        case None => Err(NotInList(PyStr(last)))
        case Some(r) => Ok(r)
  }

  /** The keys that are not among the native fields, in order. */
  function Keep(keys: seq<PyVal>, natives: seq<string>): (r: seq<PyVal>)
    ensures forall k :: k in r <==> k in keys && !(k.PyStr? && k.s in natives)
    ensures Distinct(keys) ==> Distinct(r)
  {
    if keys == [] then []
    else
      var rest := Keep(keys[1..], natives);
      assert forall k :: k in keys <==> k == keys[0] || k in keys[1..];
      if keys[0].PyStr? && keys[0].s in natives then rest
      else
        assert Distinct(keys) ==> keys[0] !in keys[1..];
        assert forall i :: 1 <= i <= |rest| ==> ([keys[0]] + rest)[i] == rest[i - 1];
        [keys[0]] + rest
  }

  lemma {:induction false} KeepStep(keys: seq<PyVal>, natives: seq<string>, n: string)
    ensures Keep(keys, natives + [n]) == Without(Keep(keys, natives), PyStr(n))
  {
    if keys != [] {
      KeepStep(keys[1..], natives, n);
    }
  }

  lemma {:induction false} RemoveFirstDistinct(xs: seq<PyVal>, x: PyVal)
    requires Distinct(xs) && x in xs
    ensures RemoveFirst(xs, x) == Some(Without(xs, x))
  {
    if xs[0] != x {
      assert Distinct(xs[1..]);
      RemoveFirstDistinct(xs[1..], x);
    } else {
      assert x !in xs[1..];
      WithoutAbsent(xs[1..], x);
    }
  }

  lemma {:induction false} WithoutAbsent(xs: seq<PyVal>, x: PyVal)
    requires x !in xs
    ensures Without(xs, x) == xs
  {
    if xs != [] {
      WithoutAbsent(xs[1..], x);
    }
  }

  /** Over the distinct keys of `_processed_data`, removing the native fields
      succeeds exactly when each was recorded once and is still present (a
      native key set twice, or deleted, raises ValueError); what remains is
      the other keys in their insertion order. */
  lemma {:induction false} NonNativeDistinct(keys: seq<PyVal>, natives: seq<string>)
    requires Distinct(keys)
    ensures NonNative(keys, natives).Ok? <==> Distinct(natives) && forall n :: n in natives ==> PyStr(n) in keys
    ensures NonNative(keys, natives).Ok? ==> NonNative(keys, natives).value == Keep(keys, natives)
  {
    if natives == [] {
      assert Keep(keys, []) == keys by {
        KeepNone(keys);
      }
    } else {
      var init := natives[..|natives| - 1];
      var last := natives[|natives| - 1];
      assert natives == init + [last];
      NonNativeDistinct(keys, init);
      DistinctSnoc(init, last);
      if NonNative(keys, init).Ok? {
        var rest := Keep(keys, init);
        if PyStr(last) in rest {
          RemoveFirstDistinct(rest, PyStr(last));
          KeepStep(keys, init, last);
        }
      }
    }
  }

  /** A list with one more item is duplicate-free exactly when the shorter
      one is and does not hold the item. */
  lemma DistinctSnoc<T>(init: seq<T>, last: T)
    ensures Distinct(init + [last]) <==> Distinct(init) && last !in init
  {
    var s := init + [last];
    if Distinct(init) && last !in init {
      forall i, j | 0 <= i < j < |s| ensures s[i] != s[j] {
        if j == |s| - 1 { assert s[i] in init; }
      }
    }
    if Distinct(s) {
      assert forall i :: 0 <= i < |init| ==> init[i] == s[i];
      forall i | 0 <= i < |init| ensures init[i] != last {
        assert s[i] != s[|s| - 1];
      }
    }
  }

  lemma {:induction false} KeepNone(keys: seq<PyVal>)
    ensures Keep(keys, []) == keys
  {
    if keys != [] {
      KeepNone(keys[1..]);
    }
  }

  /** The outputs of the native fields, in the order they were set. */
  function NativeParams(natives: seq<string>, processed: Dict<PyVal, PyVal>): (r: seq<PyVal>)
    ensures |r| == |natives|
    ensures forall i :: 0 <= i < |natives| ==> r[i] == processed.Get(PyStr(natives[i]), PyNone)
  {
    if natives == [] then []
    else NativeParams(natives[..|natives| - 1], processed) + [processed.Get(PyStr(natives[|natives| - 1]), PyNone)]
  }

  /** `Native_Params` in the form the docstring of `_process_query` gives,
      `[{'state': 'CA'}]`: one single-entry dict per native field. */
  function NamedNativeParams(natives: seq<string>, processed: Dict<PyVal, PyVal>): (r: seq<map<string, PyVal>>)
    ensures |r| == |natives|
  {
    seq(|natives|, i requires 0 <= i < |natives| => map[natives[i] := processed.Get(PyStr(natives[i]), PyNone)])
  }

  /** The named form carries each native field's name beside the value that
      `Native_Params` as written holds at the same position. */
  lemma NamedNativeParamsKeepNames(natives: seq<string>, processed: Dict<PyVal, PyVal>)
    ensures forall i :: 0 <= i < |natives| ==>
      NamedNativeParams(natives, processed)[i].Keys == {natives[i]}
      && NamedNativeParams(natives, processed)[i][natives[i]] == NativeParams(natives, processed)[i]
  {
  }

  /** As written, `Native_Params` holds only the values: 'state' = 'CA' and
      'city' = 'CA' give the same `['CA']`, while the named form tells them
      apart. */
  lemma NativeParamsLoseNames(p1: Dict<PyVal, PyVal>, p2: Dict<PyVal, PyVal>)
    requires p1.vals == map[PyStr("state") := PyStr("CA")]
    requires p2.vals == map[PyStr("city") := PyStr("CA")]
    ensures NativeParams(["state"], p1) == NativeParams(["city"], p2) == [PyStr("CA")]
    ensures NamedNativeParams(["state"], p1) != NamedNativeParams(["city"], p2)
  {
    assert NamedNativeParams(["state"], p1)[0].Keys == {"state"};
    assert NamedNativeParams(["city"], p2)[0].Keys == {"city"};
  }

  /** One parameter per remaining key, with its output. */
  function CfParams(rest: seq<PyVal>, processed: Dict<PyVal, PyVal>): (r: seq<CfParam>)
    ensures |r| == |rest|
    ensures forall i :: 0 <= i < |rest| ==> r[i] == CfParam(rest[i], processed.Get(rest[i], PyNone))
  {
    if rest == [] then []
    else CfParams(rest[..|rest| - 1], processed) + [CfParam(rest[|rest| - 1], processed.Get(rest[|rest| - 1], PyNone))]
  }

  /** `_process_query(query)`: `(Native_Params, CF_Params)`, or the
      ValueError of `list.remove`. */
  function QueryParams(natives: seq<string>, processed: Dict<PyVal, PyVal>)
    : Result<(seq<PyVal>, seq<CfParam>), QueryError>
  {
    match NonNative(processed.keys, natives)
    case Err(e) => Err(e)
    case Ok(rest) => Ok((NativeParams(natives, processed), CfParams(rest, processed)))
  }

  /** For a query whose native fields were each set once and not deleted,
      `_process_query` succeeds: the native parameters are their outputs in
      order, and there is one custom field parameter per other processed key,
      in insertion order, carrying that key's output. A native field set
      twice makes it raise. */
  lemma QueryParamsShape(natives: seq<string>, processed: Dict<PyVal, PyVal>)
    requires processed.Valid()
    ensures QueryParams(natives, processed).Ok? <==>
      Distinct(natives) && forall n :: n in natives ==> PyStr(n) in processed.vals
    ensures QueryParams(natives, processed).Ok? ==>
      QueryParams(natives, processed).value.1 == CfParams(Keep(processed.keys, natives), processed)
  {
    NonNativeDistinct(processed.keys, natives);
  }

  /** Lines 231-244, with `list.remove` raising on a missing item. */
  method ProcessQuery(q: Query) returns (r: Result<(seq<PyVal>, seq<CfParam>), QueryError>)
    ensures r == QueryParams(q.nativeFields, q.processed)
  {
    var natives := q.nativeFields;
    var processed := q.processed;
    var nativeParams: seq<PyVal> := [];
    var listNonNative := processed.keys;
    for i := 0 to |natives|
      invariant NonNative(processed.keys, natives[..i]) == Ok(listNonNative)
      invariant nativeParams == NativeParams(natives[..i], processed)
    {
      var item := natives[i];
      PrefixStep(processed, natives, i, listNonNative);
      nativeParams := nativeParams + [processed.Get(PyStr(item), PyNone)];
      var removed := RemoveFirst(listNonNative, PyStr(item));
      if removed.None? {
        NonNativeErrorPersists(processed.keys, natives, i + 1);
        return Err(NotInList(PyStr(item)));
      }
      listNonNative := removed.value;
    }
    assert natives[..|natives|] == natives;
    var cfParams := BuildCfParams(listNonNative, processed);
    return Ok((nativeParams, cfParams));
  }

  /** One more native field: its output is appended and it is removed from
      what remains. */
  lemma PrefixStep(processed: Dict<PyVal, PyVal>, natives: seq<string>, i: nat, rest: seq<PyVal>)
    requires i < |natives| && NonNative(processed.keys, natives[..i]) == Ok(rest)
    ensures NativeParams(natives[..i + 1], processed)
      == NativeParams(natives[..i], processed) + [processed.Get(PyStr(natives[i]), PyNone)]
    ensures NonNative(processed.keys, natives[..i + 1])
      == match RemoveFirst(rest, PyStr(natives[i]))
         case None => Err(NotInList(PyStr(natives[i])))
         case Some(r) => Ok(r)
  {
    assert natives[..i + 1][..i] == natives[..i];
  }

  /** Lines 240-242: one parameter per remaining key. */
  method BuildCfParams(rest: seq<PyVal>, processed: Dict<PyVal, PyVal>) returns (cfParams: seq<CfParam>)
    ensures cfParams == CfParams(rest, processed)
  {
    cfParams := [];
    for j := 0 to |rest|
      invariant cfParams == CfParams(rest[..j], processed)
    {
      assert rest[..j + 1][..j] == rest[..j];
      cfParams := cfParams + [CfParam(rest[j], processed.Get(rest[j], PyNone))];
    }
    assert rest[..|rest|] == rest;
  }

  /** Once a removal fails, `_process_query` has raised. */
  lemma {:induction false} NonNativeErrorPersists(keys: seq<PyVal>, natives: seq<string>, i: nat)
    requires i <= |natives| && NonNative(keys, natives[..i]).Err?
    ensures NonNative(keys, natives) == NonNative(keys, natives[..i])
    decreases |natives| - i
  {
    if i < |natives| {
      assert natives[..i + 1][..i] == natives[..i];
      NonNativeErrorPersists(keys, natives, i + 1);
    } else {
      assert natives[..i] == natives;
    }
  }

  // ---------------------------------------------------------------------------
  // Two sequences of calls

  /** Setting a custom field by name stores it under its id; deleting it by
      name then removes only the raw input, and the resolved entry stays. */
  method DeleteByNameKeepsId(snap: Snapshot) returns (q: Query)
    requires snap.cfIdLookup == map["Region" := 5]
    requires snap.options(5) == [(50, "West")]
    ensures q.Valid()
    ensures PyStr("Region") !in q.data.vals && PyStr("Region") !in q.processed.vals
    ensures PyInt(5) in q.processed.vals && q.processed.vals[PyInt(5)] == PyList([PyInt(50)])
  {
    q := new Query();
    RegionWest(snap);
    var e := q.SetItem(PyStr("Region"), PyStr("West"), snap);
    e := q.DelItem(PyStr("Region"));
  }

  /** As written, setting a custom field by name leaves the raw input in
      `_data`, raises NameError, and stores nothing in `_processed_data`. */
  method RegionAsWritten(snap: Snapshot) returns (q: Query, err: Option<QueryError>)
    ensures err == Some(NameError("check_key"))
    ensures q.data.keys == [PyStr("Region")] && q.data.vals == map[PyStr("Region") := PyStr("West")]
    ensures q.processed.keys == [] && q.nativeFields == []
  {
    q := new Query();
    assert !IsNative(PyStr("Region")) && !IsCustomFieldsKey(PyStr("Region"));
    err := q.SetItemAsWritten(PyStr("Region"), PyStr("West"), snap);
  }

  /** Setting a native field twice records it twice, keeps the second value,
      and makes `_process_query` raise ValueError on the second removal. */
  method NativeSetTwice(snap: Snapshot) returns (q: Query, r: Result<(seq<PyVal>, seq<CfParam>), QueryError>)
    ensures q.nativeFields == ["state", "state"]
    ensures q.processed.keys == [PyStr("state")]
    ensures q.processed.vals == map[PyStr("state") := PyStr("NY")]
    ensures r == Err(NotInList(PyStr("state")))
  {
    q := SetStateTwice(snap);
    r := ProcessQuery(q);
    StateTwiceRaises(q.processed);
  }

  /** `q['state'] = 'CA'` then `q['state'] = 'NY'` on a new query. */
  method SetStateTwice(snap: Snapshot) returns (q: Query)
    ensures fresh(q) && q.Valid()
    ensures q.nativeFields == ["state", "state"]
    ensures q.processed.keys == [PyStr("state")]
    ensures q.processed.vals == map[PyStr("state") := PyStr("NY")]
  {
    q := new Query();
    SetNative(q, "state", PyStr("CA"), snap);
    assert q.processed.keys == [PyStr("state")];
    SetNative(q, "state", PyStr("NY"), snap);
  }

  /** `q[name] = value` for a native field name: it is stored as given and
      recorded once more in `_native_fields`. */
  method SetNative(q: Query, name: string, value: PyVal, snap: Snapshot)
    requires q.Valid() && name in NativeNames
    modifies q
    ensures q.Valid()
    ensures q.nativeFields == old(q.nativeFields) + [name]
    ensures q.processed == old(q.processed).Put(PyStr(name), value)
  {
    assert IsNative(PyStr(name)) && !IsCustomFieldsKey(PyStr(name));
    assert Processed(PyStr(name), value, snap) == Ok((PyStr(name), value));
    var e := q.SetItem(PyStr(name), value, snap);
  }

  lemma StateTwiceRaises(processed: Dict<PyVal, PyVal>)
    requires processed.keys == [PyStr("state")]
    ensures QueryParams(["state", "state"], processed) == Err(NotInList(PyStr("state")))
  {
    assert ["state", "state"][..1] == ["state"];
    assert RemoveFirst([PyStr("state")], PyStr("state")) == Some([]);
    assert NonNative([PyStr("state")], ["state"]) == Ok([]) by {
      assert ["state"][..0] == [];
    }
  }
}
