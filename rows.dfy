/** `_clean_row` and its inner `clean_date` (cu_api/companies.py:28-76): one
    Copper company record flattened into an output dict of the native fields,
    the address fields and the requested custom fields. */
module CompanyRows {
  import opened Python
  import opened Config

  /** A company record as Copper returns it. `fields` holds its plain keys;
      `address` is `None` when the record has no 'address' key, `Some(None)`
      for a null address and `Some(Some(d))` for an address dict; likewise
      `customFields` is `None` when there is no 'custom_fields' key. */
  datatype Company = Company(
    fields: map<string, PyVal>,
    address: Option<Option<Dict<string, PyVal>>>,
    customFields: Option<seq<CustomFieldValue>>)

  /** The KeyErrors `_clean_row` can raise. */
  datatype CleanError =
    | MissingKey(key: string)   // company_data['address'] or ['custom_fields']
    | UnknownField(id: int)     // custom_fields[item_id]

  /** An address, when present, is a genuine dict. */
  ghost predicate AddressValid(c: Company) {
    c.address.Some? && c.address.value.Some? ==> c.address.value.value.Valid()
  }

  // ---------------------------------------------------------------------------
  // clean_date (lines 37-47)

  /** `isinstance(date, int) and 6 <= len(str(date)) <= 10`. */
  predicate LooksLikeTimestamp(date: PyVal) {
    date.PyInt? && 6 <= |DecimalString(date.i)| <= 10
  }

  /** `clean_date(date)`. The pandas conversion to US/Central is `toCentral`;
      `None` stands for a conversion that raises, which the `except` turns
      back into the input. */
  function CleanDate(date: PyVal, toCentral: int -> Option<PyVal>): (r: PyVal)
    ensures date == PyNone ==> r == PyNone
    ensures !LooksLikeTimestamp(date) ==> r == date
    ensures LooksLikeTimestamp(date) && toCentral(date.i).Some? ==> r == toCentral(date.i).value
    ensures LooksLikeTimestamp(date) && toCentral(date.i).None? ==> r == date
  {
    if date.PyNone? then PyNone
    else if LooksLikeTimestamp(date) then
      match toCentral(date.i)
      case Some(t) => t
      case None => date
    else date
  }

  /** `str(d)` has 6 to 10 characters exactly for 100000 <= d <= 9999999999
      and for -999999999 <= d <= -10000 (the sign counts as a character). */
  lemma TimestampDigits(d: int)
    ensures 6 <= |DecimalString(d)| <= 10 <==>
      (100000 <= d <= 9999999999) || (-999999999 <= d <= -10000)
  {
    var m: nat := if d < 0 then -d else d;
    assert Pow10(4) == 10000 && Pow10(5) == 100000;
    assert Pow10(9) == 1000000000 && Pow10(10) == 10000000000;
    if d < 0 {
      NatStringLength(m, 4);
      NatStringLength(m, 9);
    } else {
      NatStringLength(m, 5);
      NatStringLength(m, 10);
    }
  }

  /** A Unix time of 1700000000 seconds is converted; 12345 is kept as is. */
  lemma TimestampExamples(toCentral: int -> Option<PyVal>)
    requires toCentral(1700000000) == Some(PyTimestamp(1700000000))
    ensures CleanDate(PyInt(1700000000), toCentral) == PyTimestamp(1700000000)
    ensures CleanDate(PyInt(12345), toCentral) == PyInt(12345)
  {
    TimestampDigits(1700000000);
    TimestampDigits(12345);
  }

  // ---------------------------------------------------------------------------
  // Native and address fields (lines 49-54)

  /** The output dict under construction: its contents (the order of its
      keys only decides the DataFrame's column order and is not modelled). */
  type Output = map<string, PyVal>

  /** `native_items`. */
  const NativeItems: seq<string> := ["id", "name", "assignee_id", "contact_type_id"]

  /** `company_data.get(item, None)`. */
  function FieldOrNone(fields: map<string, PyVal>, item: string): PyVal {
    if item in fields then fields[item] else PyNone
  }

  /** The output after `output_dict[item] = company_data.get(item, None)` for
      the first i of items. */
  function NativeUpTo(fields: map<string, PyVal>, items: seq<string>, i: nat): Output
    requires i <= |items|
  {
    if i == 0 then map[] else NativeUpTo(fields, items, i - 1)[items[i - 1] := FieldOrNone(fields, items[i - 1])]
  }

  /** After the first loop every item is present, with its value or `None`,
      and nothing else is. */
  lemma {:induction false} NativeUpToShape(fields: map<string, PyVal>, items: seq<string>, i: nat)
    requires i <= |items|
    ensures forall key :: key in NativeUpTo(fields, items, i) <==> key in items[..i]
    ensures forall key :: key in items[..i] ==> NativeUpTo(fields, items, i)[key] == FieldOrNone(fields, key)
  {
    if i > 0 {
      NativeUpToShape(fields, items, i - 1);
      assert items[..i] == items[..i - 1] + [items[i - 1]];
    }
  }

  /** The native part of every cleaned row. */
  lemma NativeFields(fields: map<string, PyVal>)
    ensures forall key :: key in NativeUpTo(fields, NativeItems, 4) <==> key in NativeItems
    ensures forall item :: item in NativeItems ==> NativeUpTo(fields, NativeItems, 4)[item] == FieldOrNone(fields, item)
  {
    NativeUpToShape(fields, NativeItems, 4);
    assert NativeItems[..4] == NativeItems;
  }

  /** `out` after copying the first i keys of the address. */
  function CopyUpTo(out: Output, addr: Dict<string, PyVal>, i: nat): Output
    requires addr.Valid() && i <= |addr.keys|
  {
    if i == 0 then out
    else CopyUpTo(out, addr, i - 1)[addr.keys[i - 1] := addr.vals[addr.keys[i - 1]]]
  }

  /** Copying the first i address keys overwrites exactly those keys with the
      address's values: the output is the old one updated by that part of the
      address. */
  lemma {:induction false} CopyUpToShape(out: Output, addr: Dict<string, PyVal>, i: nat)
    requires addr.Valid() && i <= |addr.keys|
    ensures forall key :: key in CopyUpTo(out, addr, i) <==> key in out || key in addr.keys[..i]
    ensures forall key :: key in addr.keys[..i] ==> CopyUpTo(out, addr, i)[key] == addr.vals[key]
    ensures forall key :: key in out && key !in addr.keys[..i] ==> CopyUpTo(out, addr, i)[key] == out[key]
  {
    if i > 0 {
      CopyUpToShape(out, addr, i - 1);
      assert addr.keys[..i] == addr.keys[..i - 1] + [addr.keys[i - 1]];
    }
  }

  /** `if company_data['address']:` copy every address key; a missing key
      raises, a null or empty address copies nothing. */
  function WithAddress(out: Output, c: Company): Result<Output, CleanError>
    requires AddressValid(c)
  {
    match c.address
    case None => Err(MissingKey("address"))
    case Some(None) => Ok(out)
    case Some(Some(addr)) => Ok(CopyUpTo(out, addr, |addr.keys|))
  }

  // ---------------------------------------------------------------------------
  // Custom fields (lines 56-74)

  /** The field's name in CUSTOM_FIELDS_DICT, if it has one. */
  function FieldName(item: CustomFieldValue, snap: Snapshot): Option<string> {
    if item.fieldId in snap.customFieldsDict then Some(snap.customFieldsDict[item.fieldId]) else None
  }

  /** Line 63 negated: the field has a name, and its name or its id was
      requested. */
  predicate Requested(item: CustomFieldValue, cfFields: seq<PyVal>, snap: Snapshot) {
    && FieldName(item, snap).Some?
    && (PyStr(FieldName(item, snap).value) in cfFields || PyInt(item.fieldId) in cfFields)
  }

  /** The output value of a requested field: its option's name, a cleaned
      date, or the value itself. */
  function CellValue(item: CustomFieldValue, snap: Snapshot, toCentral: int -> Option<PyVal>): PyVal
    requires item.fieldId in snap.customFields
  {
    var def := snap.customFields[item.fieldId];
    if def.hasOptions then snap.optionName(item.fieldId, item.value)
    else if def.dataType == Some("Date") then CleanDate(item.value, toCentral)
    else item.value
  }

  /** One pass of the loop body: `custom_fields[item_id]` raises for an id it
      does not hold, before the selection test; a field that is not requested
      leaves the output alone; a requested one is written under its name. */
  function CustomStep(out: Output, item: CustomFieldValue, cfFields: seq<PyVal>, snap: Snapshot,
                      toCentral: int -> Option<PyVal>): (r: Result<Output, CleanError>)
    ensures r.Err? <==> item.fieldId !in snap.customFields
    ensures r.Err? ==> r.error == UnknownField(item.fieldId)
    ensures r.Ok? ==> forall key :: key in r.value <==> key in out || (Requested(item, cfFields, snap) && key == FieldName(item, snap).value)
    ensures r.Ok? && Requested(item, cfFields, snap) ==>
      r.value[FieldName(item, snap).value] == CellValue(item, snap, toCentral)
    ensures r.Ok? ==> forall key :: key in out && !(Requested(item, cfFields, snap) && key == FieldName(item, snap).value) ==>
      r.value[key] == out[key]
  {
    if item.fieldId !in snap.customFields then Err(UnknownField(item.fieldId))
    else if !Requested(item, cfFields, snap) then Ok(out)
    else Ok(out[FieldName(item, snap).value := CellValue(item, snap, toCentral)])
  }

  /** The loop from item k on. */
  function CustomFrom(cfs: seq<CustomFieldValue>, k: nat, out: Output, cfFields: seq<PyVal>,
                      snap: Snapshot, toCentral: int -> Option<PyVal>): Result<Output, CleanError>
    requires k <= |cfs|
    decreases |cfs| - k
  {
    if k == |cfs| then Ok(out)
    else
      match CustomStep(out, cfs[k], cfFields, snap, toCentral)
      case Err(e) => Err(e)
      case Ok(next) => CustomFrom(cfs, k + 1, next, cfFields, snap, toCentral)
  }

  /** Some requested field among cfs[k..] is named key. */
  predicate NamedFrom(cfs: seq<CustomFieldValue>, k: nat, key: string, cfFields: seq<PyVal>, snap: Snapshot) {
    exists j :: k <= j < |cfs| && Requested(cfs[j], cfFields, snap) && FieldName(cfs[j], snap).value == key
  }

  lemma NamedFromStep(cfs: seq<CustomFieldValue>, k: nat, key: string, cfFields: seq<PyVal>, snap: Snapshot)
    requires k < |cfs|
    ensures NamedFrom(cfs, k, key, cfFields, snap) <==>
      (Requested(cfs[k], cfFields, snap) && FieldName(cfs[k], snap).value == key) || NamedFrom(cfs, k + 1, key, cfFields, snap)
  {
    if NamedFrom(cfs, k, key, cfFields, snap) {
      var j :| k <= j < |cfs| && Requested(cfs[j], cfFields, snap) && FieldName(cfs[j], snap).value == key;
      if j > k {
        assert NamedFrom(cfs, k + 1, key, cfFields, snap);
      }
    }
  }

  /** The loop raises exactly when some field id is missing from
      CUSTOM_FIELDS, requested or not, and names the first one. */
  lemma {:induction false} CustomFromErr(cfs: seq<CustomFieldValue>, k: nat, out: Output,
                                         cfFields: seq<PyVal>, snap: Snapshot, toCentral: int -> Option<PyVal>)
    requires k <= |cfs|
    ensures var r := CustomFrom(cfs, k, out, cfFields, snap, toCentral);
      && (r.Err? <==> exists j :: k <= j < |cfs| && cfs[j].fieldId !in snap.customFields)
      && (r.Err? ==>
            exists j :: k <= j < |cfs| && r.error == UnknownField(cfs[j].fieldId)
              && cfs[j].fieldId !in snap.customFields
              && forall i :: k <= i < j ==> cfs[i].fieldId in snap.customFields)
    decreases |cfs| - k
  {
    if k < |cfs| {
      var step := CustomStep(out, cfs[k], cfFields, snap, toCentral);
      if step.Ok? {
        CustomFromErr(cfs, k + 1, step.value, cfFields, snap, toCentral);
        var r := CustomFrom(cfs, k, out, cfFields, snap, toCentral);
        if r.Err? {
          var j :| k + 1 <= j < |cfs| && r.error == UnknownField(cfs[j].fieldId)
            && cfs[j].fieldId !in snap.customFields
            && forall i :: k + 1 <= i < j ==> cfs[i].fieldId in snap.customFields;
          assert forall i :: k <= i < j ==> cfs[i].fieldId in snap.customFields;
        }
      }
    }
  }

  /** Otherwise it adds exactly the names of the requested fields and leaves
      every other key's value alone. */
  lemma {:induction false} CustomFromOk(cfs: seq<CustomFieldValue>, k: nat, out: Output,
                                        cfFields: seq<PyVal>, snap: Snapshot, toCentral: int -> Option<PyVal>)
    requires k <= |cfs|
    ensures var r := CustomFrom(cfs, k, out, cfFields, snap, toCentral);
      r.Ok? ==>
        && (forall key :: key in r.value <==> key in out || NamedFrom(cfs, k, key, cfFields, snap))
        && (forall key :: key in out && !NamedFrom(cfs, k, key, cfFields, snap) ==> r.value[key] == out[key])
    decreases |cfs| - k
  {
    if k < |cfs| {
      var step := CustomStep(out, cfs[k], cfFields, snap, toCentral);
      var r := CustomFrom(cfs, k, out, cfFields, snap, toCentral);
      if step.Ok? && r.Ok? {
        CustomFromOk(cfs, k + 1, step.value, cfFields, snap, toCentral);
        forall key
          ensures key in r.value <==> key in out || NamedFrom(cfs, k, key, cfFields, snap)
          ensures key in out && !NamedFrom(cfs, k, key, cfFields, snap) ==> r.value[key] == out[key]
        {
          NamedFromStep(cfs, k, key, cfFields, snap);
        }
      }
    }
  }

  /** The last requested field named key decides its value: a requested field
      at position j that no later requested field renames leaves its cleaned
      value in the output. */
  lemma {:induction false} CustomFromLast(cfs: seq<CustomFieldValue>, k: nat, out: Output,
                                          cfFields: seq<PyVal>, snap: Snapshot, toCentral: int -> Option<PyVal>, j: nat)
    requires k <= j < |cfs| && Requested(cfs[j], cfFields, snap) && cfs[j].fieldId in snap.customFields
    requires !NamedFrom(cfs, j + 1, FieldName(cfs[j], snap).value, cfFields, snap)
    ensures var r := CustomFrom(cfs, k, out, cfFields, snap, toCentral);
      r.Ok? ==> (FieldName(cfs[j], snap).value in r.value
                 && r.value[FieldName(cfs[j], snap).value] == CellValue(cfs[j], snap, toCentral))
    decreases |cfs| - k
  {
    var step := CustomStep(out, cfs[k], cfFields, snap, toCentral);
    var r := CustomFrom(cfs, k, out, cfFields, snap, toCentral);
    if step.Ok? && r.Ok? {
      if j == k {
        CustomFromOk(cfs, k + 1, step.value, cfFields, snap, toCentral);
      } else {
        CustomFromLast(cfs, k + 1, step.value, cfFields, snap, toCentral, j);
      }
    }
  }

  /** `_clean_row(company_data, cf_fields)`, with the schema snapshot and
      the date conversion passed in. */
  function CleanedRow(c: Company, cfFields: seq<PyVal>, snap: Snapshot, toCentral: int -> Option<PyVal>)
    : Result<Output, CleanError>
    requires AddressValid(c)
  {
    match WithAddress(NativeUpTo(c.fields, NativeItems, |NativeItems|), c)
    case Err(e) => Err(e)
    case Ok(out) =>
      match c.customFields
      case None => Err(MissingKey("custom_fields"))
      case Some(cfs) => CustomFrom(cfs, 0, out, cfFields, snap, toCentral)
  }

  /** A missing 'address' or 'custom_fields' key raises, and so does any
      custom field id missing from CUSTOM_FIELDS, requested or not. */
  lemma CleanedRowErrors(c: Company, cfFields: seq<PyVal>, snap: Snapshot, toCentral: int -> Option<PyVal>)
    requires AddressValid(c)
    ensures c.address.None? ==> CleanedRow(c, cfFields, snap, toCentral) == Err(MissingKey("address"))
    ensures c.address.Some? && c.customFields.None? ==>
      CleanedRow(c, cfFields, snap, toCentral) == Err(MissingKey("custom_fields"))
    ensures c.address.Some? && c.customFields.Some? ==>
      (CleanedRow(c, cfFields, snap, toCentral).Err? <==>
        exists j :: 0 <= j < |c.customFields.value| && c.customFields.value[j].fieldId !in snap.customFields)
  {
    if c.address.Some? && c.customFields.Some? {
      var out := WithAddress(NativeUpTo(c.fields, NativeItems, |NativeItems|), c).value;
      CustomFromErr(c.customFields.value, 0, out, cfFields, snap, toCentral);
    }
  }

  /** A key of the address dict. */
  predicate AddressKey(key: string, c: Company) {
    c.address.Some? && c.address.value.Some? && key in c.address.value.value.keys
  }

  /** After lines 49-54: the native items and the address keys; an address
      key holds the address's value, any other native item the record's value
      or `None`. */
  lemma AddressStage(c: Company)
    requires AddressValid(c) && c.address.Some?
    ensures var out := WithAddress(NativeUpTo(c.fields, NativeItems, |NativeItems|), c).value;
      && (forall key :: key in out <==> key in NativeItems || AddressKey(key, c))
      && (forall item :: item in NativeItems && !AddressKey(item, c) ==> out[item] == FieldOrNone(c.fields, item))
      && (forall key :: AddressKey(key, c) ==> out[key] == c.address.value.value.vals[key])
  {
    var native := NativeUpTo(c.fields, NativeItems, |NativeItems|);
    NativeFields(c.fields);
    if c.address.value.Some? {
      var addr := c.address.value.value;
      assert addr.keys[..|addr.keys|] == addr.keys;
      CopyUpToShape(native, addr, |addr.keys|);
    }
  }

  /** The keys a cleaned row may hold: a native item, an address key, or the
      name of a requested custom field. */
  predicate AllowedKey(key: string, c: Company, cfFields: seq<PyVal>, snap: Snapshot) {
    || key in NativeItems
    || AddressKey(key, c)
    || (c.customFields.Some? && NamedFrom(c.customFields.value, 0, key, cfFields, snap))
  }

  /** What a cleaned row holds: the native items, the address keys and the
      names of the requested custom fields, and nothing else. */
  lemma CleanedRowKeys(c: Company, cfFields: seq<PyVal>, snap: Snapshot, toCentral: int -> Option<PyVal>)
    requires AddressValid(c)
    ensures var r := CleanedRow(c, cfFields, snap, toCentral);
      r.Ok? ==> forall key :: key in r.value <==> AllowedKey(key, c, cfFields, snap)
  {
    if CleanedRow(c, cfFields, snap, toCentral).Ok? {
      AddressStage(c);
      var out := WithAddress(NativeUpTo(c.fields, NativeItems, |NativeItems|), c).value;
      CustomFromOk(c.customFields.value, 0, out, cfFields, snap, toCentral);
    }
  }

  /** The last requested custom field of a name gives that column its
      cleaned value. */
  lemma CleanedRowCustomValue(c: Company, cfFields: seq<PyVal>, snap: Snapshot, toCentral: int -> Option<PyVal>, j: nat)
    requires AddressValid(c) && c.customFields.Some? && j < |c.customFields.value|
    requires Requested(c.customFields.value[j], cfFields, snap) && c.customFields.value[j].fieldId in snap.customFields
    requires !NamedFrom(c.customFields.value, j + 1, FieldName(c.customFields.value[j], snap).value, cfFields, snap)
    ensures var r := CleanedRow(c, cfFields, snap, toCentral);
      var name := FieldName(c.customFields.value[j], snap).value;
      r.Ok? ==> name in r.value && r.value[name] == CellValue(c.customFields.value[j], snap, toCentral)
  {
    if CleanedRow(c, cfFields, snap, toCentral).Ok? {
      var out := WithAddress(NativeUpTo(c.fields, NativeItems, |NativeItems|), c).value;
      CustomFromLast(c.customFields.value, 0, out, cfFields, snap, toCentral, j);
    }
  }

  /** A native item or address key that no requested custom field renames
      keeps the record's value (`None` for an absent native item) or the
      address's value; the address wins over a native item of the same
      name. */
  lemma CleanedRowKeptValue(c: Company, cfFields: seq<PyVal>, snap: Snapshot, toCentral: int -> Option<PyVal>, key: string)
    requires AddressValid(c) && c.customFields.Some?
    requires !NamedFrom(c.customFields.value, 0, key, cfFields, snap)
    ensures var r := CleanedRow(c, cfFields, snap, toCentral);
      && (r.Ok? && AddressKey(key, c) ==> key in r.value && r.value[key] == c.address.value.value.vals[key])
      && (r.Ok? && key in NativeItems && !AddressKey(key, c) ==> key in r.value && r.value[key] == FieldOrNone(c.fields, key))
  {
    if CleanedRow(c, cfFields, snap, toCentral).Ok? {
      AddressStage(c);
      var out := WithAddress(NativeUpTo(c.fields, NativeItems, |NativeItems|), c).value;
      CustomFromOk(c.customFields.value, 0, out, cfFields, snap, toCentral);
    }
  }

  /** A requested Date field keeps its name and has its Unix time converted,
      whether it is asked for by name or by id; it is left out when neither
      was asked for. */
  lemma RequestedDateField(snap: Snapshot, toCentral: int -> Option<PyVal>, fields: map<string, PyVal>)
    requires snap.customFieldsDict == map[7 := "Renewal"]
    requires snap.customFields == map[7 := FieldDef(Some("Date"), false)]
    requires toCentral(1700000000) == Some(PyTimestamp(1700000000))
    ensures var c := Company(fields, Some(None), Some([CustomFieldValue(7, PyInt(1700000000))]));
      && CleanedRow(c, [PyStr("Renewal")], snap, toCentral).Ok?
      && CleanedRow(c, [PyStr("Renewal")], snap, toCentral).value["Renewal"] == PyTimestamp(1700000000)
      && CleanedRow(c, [PyInt(7)], snap, toCentral) == CleanedRow(c, [PyStr("Renewal")], snap, toCentral)
      && CleanedRow(c, [], snap, toCentral) == Ok(NativeUpTo(fields, NativeItems, 4))
  {
    TimestampDigits(1700000000);
    var item := CustomFieldValue(7, PyInt(1700000000));
    assert FieldName(item, snap) == Some("Renewal");
    assert PyInt(7) != PyStr("Renewal");
  }

  // ---------------------------------------------------------------------------
  // The loops

  /** Lines 49-76: fill `output_dict` item by item. */
  method CleanRow(c: Company, cfFields: seq<PyVal>, snap: Snapshot, toCentral: int -> Option<PyVal>)
    returns (r: Result<Output, CleanError>)
    requires AddressValid(c)
    ensures r == CleanedRow(c, cfFields, snap, toCentral)
  {
    var output: Output := map[];
    for i := 0 to |NativeItems|
      invariant output == NativeUpTo(c.fields, NativeItems, i)
    {
      var item := NativeItems[i];
      var value := if item in c.fields then c.fields[item] else PyNone;
      output := output[item := value];
    }
    if c.address.None? {
      return Err(MissingKey("address"));
    }
    if c.address.value.Some? {
      var addr := c.address.value.value;
      ghost var native := output;
      for i := 0 to |addr.keys|
        invariant output == CopyUpTo(native, addr, i)
      {
        output := output[addr.keys[i] := addr.vals[addr.keys[i]]];
      }
    }
    if c.customFields.None? {
      return Err(MissingKey("custom_fields"));
    }
    var cfs := c.customFields.value;
    ghost var start := output;
    for k := 0 to |cfs|
      invariant CustomFrom(cfs, 0, start, cfFields, snap, toCentral) == CustomFrom(cfs, k, output, cfFields, snap, toCentral)
    {
      var item := cfs[k];
      var name := if item.fieldId in snap.customFieldsDict then Some(snap.customFieldsDict[item.fieldId]) else None;
      if item.fieldId !in snap.customFields {
        return Err(UnknownField(item.fieldId));
      }
      var def := snap.customFields[item.fieldId];
      if ((name.None? || PyStr(name.value) !in cfFields) && PyInt(item.fieldId) !in cfFields) || name.None? {
        continue;
      } else if def.hasOptions {
        output := output[name.value := snap.optionName(item.fieldId, item.value)];
      } else if def.dataType == Some("Date") {
        output := output[name.value := CleanDate(item.value, toCentral)];
      } else {
        output := output[name.value := item.value];
      }
    }
    return Ok(output);
  }
}
