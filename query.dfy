/** `_check_key`, `_check_value` and its inner `find_key_by_value`
    (cu_api/query.py:10-71): turning the keys and values of a search into
    custom field ids and option ids. */
module QueryResolve {
  import opened Python
  import opened Config

  /** The exceptions the query builder raises. */
  datatype QueryError =
    | InvalidKey(key: PyVal)      // ValueError from `_check_key`
    | NotIterable(value: PyVal)   // TypeError: `for item in value` over a non-list
    | Unhashable(key: PyVal)      // TypeError: a list used as a dict key
    | NotInList(item: PyVal)      // ValueError from `list.remove`
    | KeyNotFound(key: PyVal)     // KeyError from `Query.__getitem__`
    | NameError(name: string)     // a name the module does not define

  // ---------------------------------------------------------------------------
  // _check_key (lines 10-29)

  /** `_check_key(key)` against CF_ID_LOOKUP and CUSTOM_FIELDS_DICT: a field
      name first, then an int id, then a string whose `int()` is an id. */
  function CheckKey(key: PyVal, snap: Snapshot): (r: Result<int, QueryError>)
    ensures r.Err? ==> r.error == InvalidKey(key)
    ensures r.Ok? && !(key.PyStr? && key.s in snap.cfIdLookup) ==> r.value in snap.customFieldsDict
    ensures r.Ok? ==> key.PyStr? || key.PyInt?
    ensures key.PyStr? && key.s in snap.cfIdLookup ==> r == Ok(snap.cfIdLookup[key.s])
    ensures key.PyInt? ==> (r.Ok? <==> key.i in snap.customFieldsDict) && (r.Ok? ==> r.value == key.i)
    ensures key.PyStr? && key.s !in snap.cfIdLookup ==>
      (r.Ok? <==> ParseInt(key.s).Some? && ParseInt(key.s).value in snap.customFieldsDict)
      && (r.Ok? ==> r.value == ParseInt(key.s).value)
  {
    if key.PyStr? && key.s in snap.cfIdLookup then Ok(snap.cfIdLookup[key.s])
    else if key.PyInt? && key.i in snap.customFieldsDict then Ok(key.i)
    else if key.PyStr? && ParseInt(key.s).Some? && ParseInt(key.s).value in snap.customFieldsDict then
      Ok(ParseInt(key.s).value)
    else Err(InvalidKey(key))
  }

  /** The two tables describe the same fields: a name is looked up to the id
      that is named by it. */
  predicate ConsistentTables(snap: Snapshot) {
    forall name :: name in snap.cfIdLookup ==>
      snap.cfIdLookup[name] in snap.customFieldsDict && snap.customFieldsDict[snap.cfIdLookup[name]] == name
  }

  /** Every known id resolves to itself, given as an int or as its decimal
      string (unless that string is itself a field name, which wins); a known
      name resolves to its field when the tables agree. */
  lemma CheckKeyRoundTrip(snap: Snapshot, id: int)
    requires id in snap.customFieldsDict
    ensures CheckKey(PyInt(id), snap) == Ok(id)
    ensures DecimalString(id) !in snap.cfIdLookup ==> CheckKey(PyStr(DecimalString(id)), snap) == Ok(id)
    ensures ConsistentTables(snap) && snap.customFieldsDict[id] in snap.cfIdLookup ==>
      var r := CheckKey(PyStr(snap.customFieldsDict[id]), snap);
      r.Ok? && snap.customFieldsDict[r.value] == snap.customFieldsDict[id]
  {
    ParseDecimalString(id);
  }

  /** A name in CF_ID_LOOKUP is looked up before any numeric parse, so a
      field named "12" hides the id 12 when given as a string. */
  lemma CheckKeyNameFirst(snap: Snapshot)
    requires snap.cfIdLookup == map["12" := 7]
    requires snap.customFieldsDict == map[7 := "12", 12 := "Region"]
    ensures CheckKey(PyStr("12"), snap) == Ok(7)
    ensures CheckKey(PyInt(12), snap) == Ok(12)
    ensures CheckKey(PyStr(" 12 "), snap) == Ok(12)
    ensures CheckKey(PyStr("Region"), snap) == Err(InvalidKey(PyStr("Region")))
    ensures CheckKey(PyInt(8), snap) == Err(InvalidKey(PyInt(8)))
  {
    assert Strip(" 12 ") == "12" by {
      assert TrimStart(" 12 ") == "12 ";
      assert TrimEnd("12 ") == "12";
    }
    assert DigitsValue("12") == 12 by {
      assert "12"[..1] == "1";
    }
    assert ParseInt("Region") == None by {
      assert Strip("Region") == "Region";
    }
  }

  // ---------------------------------------------------------------------------
  // find_key_by_value (lines 48-52)

  /** The options map has an option called name. */
  predicate HasName(options: seq<(int, string)>, name: string) {
    exists i :: 0 <= i < |options| && options[i].1 == name
  }

  /** The options map has an option with id n. */
  predicate IsOptionId(options: seq<(int, string)>, n: int) {
    exists i :: 0 <= i < |options| && options[i].0 == n
  }

  /** The first option id, in the options map's order, whose name is `name`;
      `None` when there is none. */
  function FindKeyByValue(options: seq<(int, string)>, name: string): (r: Option<int>)
    ensures r.Some? <==> HasName(options, name)
    ensures r.Some? ==> exists i :: 0 <= i < |options| && options[i] == (r.value, name)
                                    && forall j :: 0 <= j < i ==> options[j].1 != name
  {
    if options == [] then None
    else if options[0].1 == name then Some(options[0].0)
    else
      var r := FindKeyByValue(options[1..], name);
      assert HasName(options, name) ==> HasName(options[1..], name) by {
        if HasName(options, name) {
          var i :| 0 <= i < |options| && options[i].1 == name;
          assert options[1..][i - 1].1 == name;
        }
      }
      assert r.Some? ==> exists i :: 0 <= i < |options| && options[i] == (r.value, name)
                                     && forall j :: 0 <= j < i ==> options[j].1 != name by {
        if r.Some? {
          var i :| 0 <= i < |options[1..]| && options[1..][i] == (r.value, name)
                   && forall j :: 0 <= j < i ==> options[1..][j].1 != name;
          assert options[i + 1] == (r.value, name);
          forall j | 0 <= j < i + 1 ensures options[j].1 != name {
            if j > 0 { assert options[j] == options[1..][j - 1]; }
          }
        }
      }
      r
  }

  // ---------------------------------------------------------------------------
  // _check_value (lines 32-71)

  /** Lines 45-46 and the `for`: a str or an int is a one-item list, a list
      is its items, anything else cannot be iterated. */
  function ValueItems(value: PyVal): (r: Result<seq<PyVal>, QueryError>)
    ensures r.Ok? <==> value.PyStr? || value.PyInt? || value.PyList?
    ensures (value.PyStr? || value.PyInt?) ==> r == Ok([value])
    ensures value.PyList? ==> r == Ok(value.items)
  {
    match value
    case PyStr(_) => Ok([value])
    case PyInt(_) => Ok([value])
    case PyList(items) => Ok(items)
    case _ => Err(NotIterable(value))
  }

  /** What one item contributes to `Updated_List`: an option name gives its
      first id, a known id itself, a numeric string its known id; anything
      else is dropped. Whatever it gives is an option id. */
  function ItemId(item: PyVal, options: seq<(int, string)>): (r: Option<int>)
    ensures r.Some? ==> IsOptionId(options, r.value)
  {
    if item.PyStr? && HasName(options, item.s) then FindKeyByValue(options, item.s)
    else if item.PyInt? && IsOptionId(options, item.i) then Some(item.i)
    else if item.PyStr? && ParseInt(item.s).Some? && IsOptionId(options, ParseInt(item.s).value) then
      Some(ParseInt(item.s).value)
    else None
  }

  /** A name maps to an option of that name, found first in order; an id
      given as an int or as its decimal string (when no option is named by
      that string) maps back to itself; with distinct names, the name of an
      option maps back to that option. */
  lemma ItemIdRoundTrip(options: seq<(int, string)>, i: nat)
    requires i < |options|
    ensures var r := ItemId(PyStr(options[i].1), options);
      exists j :: 0 <= j <= i && options[j] == (r.value, options[i].1)
    ensures ItemId(PyInt(options[i].0), options) == Some(options[i].0)
    ensures !HasName(options, DecimalString(options[i].0)) ==>
      ItemId(PyStr(DecimalString(options[i].0)), options) == Some(options[i].0)
    ensures (forall a, b :: 0 <= a < b < |options| ==> options[a].1 != options[b].1) ==>
      ItemId(PyStr(options[i].1), options) == Some(options[i].0)
  {
    assert HasName(options, options[i].1);
    assert IsOptionId(options, options[i].0);
    ParseDecimalString(options[i].0);
  }

  /** Unknown names, unknown ids and strings that are not numbers are
      dropped without an error. */
  lemma ItemIdDropped(options: seq<(int, string)>, item: PyVal)
    ensures item.PyInt? && !IsOptionId(options, item.i) ==> ItemId(item, options) == None
    ensures item.PyStr? && !HasName(options, item.s) && ParseInt(item.s).None? ==> ItemId(item, options) == None
    ensures (item.PyStr? && !HasName(options, item.s) && ParseInt(item.s).Some?
             && !IsOptionId(options, ParseInt(item.s).value)) ==> ItemId(item, options) == None
    ensures item.PyNone? || item.PyList? || item.PyTimestamp? ==> ItemId(item, options) == None
  {
  }

  /** The items that are kept, for any item: a name of an option gives the
      first id with that name; an int option id gives itself; any other
      string whose `int()` is an option id (" 3", "03", "+3") gives that id. */
  lemma ItemIdKept(options: seq<(int, string)>, item: PyVal)
    ensures item.PyStr? && HasName(options, item.s) ==> ItemId(item, options) == FindKeyByValue(options, item.s)
    ensures item.PyInt? && IsOptionId(options, item.i) ==> ItemId(item, options) == Some(item.i)
    ensures (item.PyStr? && !HasName(options, item.s) && ParseInt(item.s).Some?
             && IsOptionId(options, ParseInt(item.s).value)) ==> ItemId(item, options) == ParseInt(item.s)
  {
  }

  /** `Updated_List` after the items. */
  function Resolved(items: seq<PyVal>, options: seq<(int, string)>): seq<int> {
    if items == [] then []
    else
      var last := items[|items| - 1];
      Resolved(items[..|items| - 1], options) + (if ItemId(last, options).Some? then [ItemId(last, options).value] else [])
  }

  /** An id is in `Updated_List` exactly when some item resolves to it, and
      so every id in it is an option id. */
  lemma {:induction false} ResolvedMembers(items: seq<PyVal>, options: seq<(int, string)>)
    ensures forall x :: x in Resolved(items, options) <==> exists i :: 0 <= i < |items| && ItemId(items[i], options) == Some(x)
    ensures forall x :: x in Resolved(items, options) ==> IsOptionId(options, x)
  {
    if items != [] {
      var init := items[..|items| - 1];
      ResolvedMembers(init, options);
      forall x
        ensures x in Resolved(items, options) <==> exists i :: 0 <= i < |items| && ItemId(items[i], options) == Some(x)
      {
        if x in Resolved(items, options) && x !in Resolved(init, options) {
          assert ItemId(items[|items| - 1], options) == Some(x);
        }
        if exists i :: 0 <= i < |items| && ItemId(items[i], options) == Some(x) {
          var i :| 0 <= i < |items| && ItemId(items[i], options) == Some(x);
          if i < |items| - 1 {
            assert ItemId(init[i], options) == Some(x);
          }
        }
      }
    }
  }

  /** `list(set(xs))`: each id once. A set has no order of its own; the
      model keeps first occurrences. */
  function Dedup(xs: seq<int>): (r: seq<int>)
    ensures Distinct(r)
    ensures forall x :: x in r <==> x in xs
  {
    if xs == [] then []
    else
      var init := xs[..|xs| - 1];
      var last := xs[|xs| - 1];
      var d := Dedup(init);
      assert xs == init + [last];
      if last in d then d else d + [last]
  }

  /** `_check_value(key, value)`: a non-iterable value raises; otherwise the
      result holds, each once, exactly the option ids that some item
      resolves to, and nothing that is not an option id of the field. */
  function CheckedValue(key: int, value: PyVal, snap: Snapshot): (r: Result<seq<int>, QueryError>)
    ensures r.Err? <==> ValueItems(value).Err?
    ensures r.Err? ==> r.error == NotIterable(value)
    ensures r.Ok? ==> Distinct(r.value)
    ensures r.Ok? ==> forall x :: x in r.value <==>
      exists i :: 0 <= i < |ValueItems(value).value| && ItemId(ValueItems(value).value[i], snap.options(key)) == Some(x)
    ensures r.Ok? ==> forall x :: x in r.value ==> IsOptionId(snap.options(key), x)
  {
    match ValueItems(value)
    case Err(e) => Err(e)
    case Ok(items) =>
      ResolvedMembers(items, snap.options(key));
      Ok(Dedup(Resolved(items, snap.options(key))))
  }

  /** Lines 45-71: build `Updated_List` item by item, then take its set. */
  method CheckValue(key: int, value: PyVal, snap: Snapshot) returns (r: Result<seq<int>, QueryError>)
    ensures r == CheckedValue(key, value, snap)
  {
    var items: seq<PyVal>;
    if value.PyStr? || value.PyInt? {
      items := [value];
    } else if value.PyList? {
      items := value.items;
    } else {
      return Err(NotIterable(value));
    }
    var options := snap.options(key);
    var updated: seq<int> := [];
    for k := 0 to |items|
      invariant updated == Resolved(items[..k], options)
    {
      assert items[..k + 1][..k] == items[..k];
      var item := items[k];
      if item.PyStr? && HasName(options, item.s) {
        var id := FindKeyByValue(options, item.s);
        updated := updated + [id.value];
      } else if item.PyInt? && IsOptionId(options, item.i) {
        updated := updated + [item.i];
      } else if item.PyStr? {
        var n := ParseInt(item.s);
        if n.Some? && IsOptionId(options, n.value) {
          updated := updated + [n.value];
        }
      }
    }
    assert items[..|items|] == items;
    var unique := Unique(updated);
    return Ok(unique);
  }

  /** `list(set(xs))`, one id at a time. */
  method Unique(xs: seq<int>) returns (r: seq<int>)
    ensures r == Dedup(xs)
  {
    r := [];
    for k := 0 to |xs|
      invariant r == Dedup(xs[..k])
    {
      assert xs[..k + 1][..k] == xs[..k];
      if xs[k] !in r {
        r := r + [xs[k]];
      }
    }
    assert xs[..|xs|] == xs;
  }

  /** The options of a field, with "Blue" listed twice: a name gives its
      first id, an id and its string both give the id, an unknown name is
      dropped, and duplicates stay until the set is taken. */
  lemma CheckValueExample(options: seq<(int, string)>)
    requires options == [(1, "Red"), (2, "Blue"), (3, "Blue")]
    ensures Resolved([PyStr("Blue"), PyInt(3), PyStr("3"), PyStr("Green")], options) == [2, 3, 3]
  {
    assert options[1].1 == "Blue" && options[2].0 == 3;
    assert HasName(options, "Blue") && IsOptionId(options, 3);
    assert !HasName(options, "3") && !HasName(options, "Green") by {
      assert options[0].1 == "Red" && options[2].1 == "Blue";
    }
    assert ParseInt("3") == Some(3) by {
      assert Strip("3") == "3";
    }
    assert ParseInt("Green") == None by {
      assert Strip("Green") == "Green";
    }
    assert FindKeyByValue(options, "Blue") == Some(2) by {
      assert options[1..][0] == (2, "Blue");
    }
    var items := [PyStr("Blue"), PyInt(3), PyStr("3"), PyStr("Green")];
    assert Resolved(items[..1], options) == [2];
    assert Resolved(items[..2], options) == [2, 3] by {
      assert items[..2][..1] == items[..1];
    }
    assert Resolved(items[..3], options) == [2, 3, 3] by {
      assert items[..3][..2] == items[..2];
    }
    assert items[..4][..3] == items[..3];
  }
}
