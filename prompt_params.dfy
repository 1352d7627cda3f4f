/**
 * Prompt parameters (`PromptParams` of `omakase/backend/mnemonics.py`, duplicated in
 * `omakase/backend/mnemonics/base.py`): the "filled out" checks over values that should
 * be `str`, `dict[str, str]` or `dict[str, dict[str, str]]`, and the selection of the
 * string-typed fields of a parameter class.
 */
module PromptParams {
  import opened Wrappers

  /** A field value at run time; a dict keeps its insertion order. */
  datatype PValue = PStr(s: string) | PDict(items: seq<Item>) | POther
  datatype Item = Item(key: string, val: PValue)

  function Keys(items: seq<Item>): (r: seq<string>)
    ensures |r| == |items| && forall i :: 0 <= i < |items| ==> r[i] == items[i].key
  {
    if items == [] then [] else [items[0].key] + Keys(items[1..])
  }

  /** Dataclass field names are distinct. */
  predicate DistinctKeys(items: seq<Item>)
  {
    forall i, j :: 0 <= i < j < |items| ==> items[i].key != items[j].key
  }

  predicate AllStr(d: seq<Item>)
  {
    forall i :: 0 <= i < |d| ==> d[i].val.PStr?
  }

  predicate AllEmptyStr(d: seq<Item>)
  {
    forall i :: 0 <= i < |d| ==> d[i].val == PStr("")
  }

  predicate AllDict(d: seq<Item>)
  {
    forall i :: 0 <= i < |d| ==> d[i].val.PDict?
  }

  // ---------------------------------------------------------------------------
  // The checks as written
  // ---------------------------------------------------------------------------

  /** `_field_is_filled_out`. */
  function FieldIsFilledOut(v: PValue): (r: Result<bool>)
    ensures r.Err? ==> r.error == PromptFieldTypeError
    ensures v.PStr? ==> r.Ok?
    ensures v.POther? ==> r.Err?
  {
    match v
    case PStr(s) => Ok(s != "")
    case PDict(_) => NestedDictNonEmptyStr(v)
    case POther => Err(PromptFieldTypeError)
  }

  /**
   * `_is_nested_dict_nonempty_str` as written: for a dict of dicts the recursive calls run
   * (and may raise) but their results are discarded, so the answer is always True.
   */
  function NestedDictNonEmptyStr(v: PValue): (r: Result<bool>)
    requires v.PDict?
    ensures r.Err? ==> r.error == PromptFieldTypeError
    ensures v.items == [] ==> r == Ok(false)
    ensures v.items != [] && AllDict(v.items) && r.Ok? ==> r.value
    decreases v, 1
  {
    var d := v.items;
    if |d| == 0 then Ok(false)
    else if AllStr(d) then assert d[0].val.PStr?; Ok(!AllEmptyStr(d))
    else if AllDict(d) then
      if NestedCallsSucceed(v, 0) then Ok(true) else Err(PromptFieldTypeError)
    else Err(PromptFieldTypeError)
  }

  /** The recursive calls on values `i..` all return without raising. */
  predicate NestedCallsSucceed(v: PValue, i: nat)
    requires v.PDict? && AllDict(v.items) && i <= |v.items|
    decreases v, 0, |v.items| - i
  {
    i == |v.items| || (NestedDictNonEmptyStr(v.items[i].val).Ok? && NestedCallsSucceed(v, i + 1))
  }

  // ---------------------------------------------------------------------------
  // The check as its docstring describes it
  // ---------------------------------------------------------------------------

  /** "Is field a (nested or plain) dict of str, with some non-empty?" */
  function NestedDictNonEmptyStrIntended(v: PValue): (r: Result<bool>)
    requires v.PDict?
    ensures r.Err? ==> r.error == PromptFieldTypeError
    ensures v.items == [] ==> r == Ok(false)
    decreases v, 1
  {
    var d := v.items;
    if |d| == 0 then Ok(false)
    else if AllStr(d) then Ok(!AllEmptyStr(d))
    else if AllDict(d) then AnyNestedFilled(v, 0)
    else Err(PromptFieldTypeError)
  }

  /** Every recursive call on values `i..` runs; the answer is whether one of them is filled. */
  function AnyNestedFilled(v: PValue, i: nat): (r: Result<bool>)
    requires v.PDict? && AllDict(v.items) && i <= |v.items|
    ensures r.Err? ==> r.error == PromptFieldTypeError
    decreases v, 0, |v.items| - i
  {
    if i == |v.items| then Ok(false)
    else match NestedDictNonEmptyStrIntended(v.items[i].val)
      case Err(e) => Err(e)
      case Ok(b) =>
        match AnyNestedFilled(v, i + 1)
        case Err(e) => Err(e)
        case Ok(rest) => Ok(b || rest)
  }

  /**
   * The written and the intended checks raise on the same dicts, and whatever the intended
   * check calls filled the written one calls filled too.
   */
  lemma {:induction false} NestedCheckAgreement(v: PValue)
    requires v.PDict?
    ensures NestedDictNonEmptyStrIntended(v).Ok? <==> NestedDictNonEmptyStr(v).Ok?
    ensures NestedDictNonEmptyStrIntended(v) == Ok(true) ==> NestedDictNonEmptyStr(v) == Ok(true)
    ensures AllStr(v.items) ==> NestedDictNonEmptyStrIntended(v) == NestedDictNonEmptyStr(v)
    decreases v, 1
  {
    var d := v.items;
    if |d| > 0 && !AllStr(d) && AllDict(d) {
      NestedCallsAgreement(v, 0);
    }
  }

  lemma {:induction false} NestedCallsAgreement(v: PValue, i: nat)
    requires v.PDict? && AllDict(v.items) && i <= |v.items|
    ensures AnyNestedFilled(v, i).Ok? <==> NestedCallsSucceed(v, i)
    decreases v, 0, |v.items| - i
  {
    if i < |v.items| {
      NestedCheckAgreement(v.items[i].val);
      NestedCallsAgreement(v, i + 1);
    }
  }

  /** The dict `{"a": {"x": ""}}` holds no non-empty string, yet the written check calls it filled. */
  lemma DiscardedRecursionExample()
    ensures NestedDictNonEmptyStr(PDict([Item("a", PDict([Item("x", PStr(""))]))])) == Ok(true)
    ensures NestedDictNonEmptyStrIntended(PDict([Item("a", PDict([Item("x", PStr(""))]))])) == Ok(false)
  {
    var inner := PDict([Item("x", PStr(""))]);
    var outer := PDict([Item("a", inner)]);
    assert NestedDictNonEmptyStr(inner) == Ok(false);
    assert !outer.items[0].val.PStr? && AllDict(outer.items);
    assert NestedCallsSucceed(outer, 1);
    assert NestedCallsSucceed(outer, 0);
    assert AnyNestedFilled(outer, 1) == Ok(false);
  }

  // ---------------------------------------------------------------------------
  // non_filled_out_fields
  // ---------------------------------------------------------------------------

  /** The names of the fields `fields` that are not filled out, in declaration order. */
  function NonFilledOutFields(fields: seq<Item>): (r: Result<seq<string>>)
    ensures r.Err? ==> r.error == PromptFieldTypeError
    ensures r.Ok? ==> |r.value| <= |fields|
  {
    if fields == [] then Ok([])
    else
      var last := fields[|fields| - 1];
      match NonFilledOutFields(fields[..|fields| - 1])
      case Err(e) => Err(e)
      case Ok(prev) =>
        match FieldIsFilledOut(last.val)
        case Err(e) => Err(e)
        case Ok(filled) => Ok(if filled then prev else prev + [last.key])
  }

  /** One field whose check raises makes the whole call raise: no partial result. */
  lemma {:induction false} NonFilledOutFieldsErrPrefix(fields: seq<Item>, i: nat, e: PyError)
    requires i <= |fields|
    requires NonFilledOutFields(fields[..i]) == Err(e)
    ensures NonFilledOutFields(fields) == Err(e)
    decreases |fields| - i
  {
    if i < |fields| {
      assert fields[..i + 1][..i] == fields[..i];
      NonFilledOutFieldsErrPrefix(fields, i + 1, e);
    } else {
      assert fields[..i] == fields;
    }
  }

  /** The call succeeds exactly when every field is a str or a well-typed dict. */
  lemma {:induction false} NonFilledOutFieldsOk(fields: seq<Item>)
    ensures NonFilledOutFields(fields).Ok? <==> forall i :: 0 <= i < |fields| ==> FieldIsFilledOut(fields[i].val).Ok?
  {
    if fields != [] {
      var init := fields[..|fields| - 1];
      NonFilledOutFieldsOk(init);
      assert forall i :: 0 <= i < |init| ==> init[i] == fields[i];
    }
  }

  /** On success the result names exactly the fields whose check says "not filled". */
  lemma {:induction false} NonFilledOutFieldsMembers(fields: seq<Item>, name: string)
    requires NonFilledOutFields(fields).Ok?
    ensures name in NonFilledOutFields(fields).value <==>
      exists i :: 0 <= i < |fields| && fields[i].key == name && FieldIsFilledOut(fields[i].val) == Ok(false)
  {
    if fields != [] {
      var init := fields[..|fields| - 1];
      NonFilledOutFieldsMembers(init, name);
      assert forall i :: 0 <= i < |init| ==> init[i] == fields[i];
      if name in NonFilledOutFields(fields).value && name !in NonFilledOutFields(init).value {
        assert fields[|fields| - 1].key == name;
      }
    }
  }

  /** `non_filled_out_fields`: the append loop over the declared fields. */
  method NonFilledOutFieldsLoop(fields: seq<Item>) returns (r: Result<seq<string>>)
    ensures r == NonFilledOutFields(fields)
  {
    var acc: seq<string> := [];
    for i := 0 to |fields|
      invariant NonFilledOutFields(fields[..i]) == Ok(acc)
    {
      assert fields[..i + 1][..i] == fields[..i];
      var filled := FieldIsFilledOut(fields[i].val);
      if filled.Err? {
        assert NonFilledOutFields(fields[..i + 1]) == Err(filled.error);
        NonFilledOutFieldsErrPrefix(fields, i + 1, filled.error);
        return Err(filled.error);
      }
      if !filled.value {
        acc := acc + [fields[i].key];
      }
    }
    assert fields[..|fields|] == fields;
    r := Ok(acc);
  }

  // ---------------------------------------------------------------------------
  // get_filled_out_fields_subfields
  // ---------------------------------------------------------------------------

  /** Drop from a dict the entries whose value is not filled out. */
  function PruneSubfields(d: seq<Item>): (r: Result<seq<Item>>)
    ensures r.Err? ==> r.error == PromptFieldTypeError
  {
    if d == [] then Ok([])
    else
      var last := d[|d| - 1];
      match PruneSubfields(d[..|d| - 1])
      case Err(e) => Err(e)
      case Ok(prev) =>
        match FieldIsFilledOut(last.val)
        case Err(e) => Err(e)
        case Ok(filled) => Ok(if filled then prev + [last] else prev)
  }

  /** The kept value of a filled field: a dict loses its unfilled entries. */
  function PruneValue(v: PValue): (r: Result<PValue>)
    ensures r.Err? ==> r.error == PromptFieldTypeError
  {
    match v
    case PDict(d) => (match PruneSubfields(d) case Err(e) => Err(e) case Ok(d') => Ok(PDict(d')))
    case _ => Ok(v)
  }

  /** The filled fields (declaration order), each with its unfilled subfields dropped. */
  function FilledOutFieldsSubfields(fields: seq<Item>): (r: Result<seq<Item>>)
    ensures r.Err? ==> r.error == PromptFieldTypeError
    ensures r.Ok? ==> |r.value| <= |fields|
  {
    match NonFilledOutFields(fields)
    case Err(e) => Err(e)
    case Ok(nonFilled) => KeepFilled(fields, nonFilled)
  }

  function KeepFilled(fields: seq<Item>, nonFilled: seq<string>): (r: Result<seq<Item>>)
    ensures r.Err? ==> r.error == PromptFieldTypeError
    ensures r.Ok? ==> |r.value| <= |fields|
  {
    if fields == [] then Ok([])
    else
      var last := fields[|fields| - 1];
      match KeepFilled(fields[..|fields| - 1], nonFilled)
      case Err(e) => Err(e)
      case Ok(prev) =>
        if last.key in nonFilled then Ok(prev)
        else match PruneValue(last.val)
          case Err(e) => Err(e)
          case Ok(v) => Ok(prev + [Item(last.key, v)])
  }

  /** Pruning a dict whose check already succeeded cannot raise. */
  lemma {:induction false} PruneSubfieldsOk(v: PValue)
    requires v.PDict? && FieldIsFilledOut(v).Ok?
    ensures PruneSubfields(v.items).Ok?
  {
    var d := v.items;
    if AllStr(d) {
      PruneStrSubfieldsOk(d);
    } else {
      assert AllDict(d) && NestedCallsSucceed(v, 0);
      PruneDictSubfieldsOk(v, |d|);
      assert d[..|d|] == d;
    }
  }

  lemma {:induction false} PruneStrSubfieldsOk(d: seq<Item>)
    requires AllStr(d)
    ensures PruneSubfields(d).Ok?
  {
    if d != [] {
      var init := d[..|d| - 1];
      assert forall i :: 0 <= i < |init| ==> init[i] == d[i];
      PruneStrSubfieldsOk(init);
    }
  }

  lemma {:induction false} PruneDictSubfieldsOk(v: PValue, n: nat)
    requires v.PDict? && AllDict(v.items) && n <= |v.items| && NestedCallsSucceed(v, 0)
    ensures PruneSubfields(v.items[..n]).Ok?
  {
    if n > 0 {
      assert v.items[..n][..n - 1] == v.items[..n - 1];
      PruneDictSubfieldsOk(v, n - 1);
      NestedCallsSucceedAt(v, 0, n - 1);
    }
  }

  lemma {:induction false} NestedCallsSucceedAt(v: PValue, i: nat, j: nat)
    requires v.PDict? && AllDict(v.items)
    requires i <= j < |v.items|
    requires NestedCallsSucceed(v, i)
    ensures NestedDictNonEmptyStr(v.items[j].val).Ok?
    decreases j - i
  {
    if i < j {
      NestedCallsSucceedAt(v, i + 1, j);
    }
  }

  /** Once the fields pass `non_filled_out_fields`, dropping subfields never raises. */
  lemma {:induction false} FilledOutFieldsSubfieldsOk(fields: seq<Item>)
    ensures FilledOutFieldsSubfields(fields).Ok? <==> NonFilledOutFields(fields).Ok?
  {
    if NonFilledOutFields(fields).Ok? {
      var nonFilled := NonFilledOutFields(fields).value;
      NonFilledOutFieldsOk(fields);
      forall i | 0 <= i < |fields| && FieldIsFilledOut(fields[i].val) == Ok(false)
        ensures fields[i].key in nonFilled
      {
        NonFilledOutFieldsMembers(fields, fields[i].key);
      }
      KeepFilledOk(fields, nonFilled);
    }
  }

  lemma {:induction false} KeepFilledOk(fields: seq<Item>, nonFilled: seq<string>)
    requires forall i :: 0 <= i < |fields| ==> FieldIsFilledOut(fields[i].val).Ok?
    requires forall i :: 0 <= i < |fields| && FieldIsFilledOut(fields[i].val) == Ok(false) ==> fields[i].key in nonFilled
    ensures KeepFilled(fields, nonFilled).Ok?
  {
    if fields != [] {
      var init := fields[..|fields| - 1];
      assert forall i :: 0 <= i < |init| ==> init[i] == fields[i];
      KeepFilledOk(init, nonFilled);
      var last := fields[|fields| - 1];
      if last.key !in nonFilled && last.val.PDict? {
        PruneSubfieldsOk(last.val);
      }
    }
  }

  /** With distinct names, the result keys are exactly the filled fields. */
  lemma {:induction false} FilledOutFieldsSubfieldsKeys(fields: seq<Item>, name: string)
    requires DistinctKeys(fields)
    requires FilledOutFieldsSubfields(fields).Ok?
    ensures name in Keys(FilledOutFieldsSubfields(fields).value) <==>
      exists i :: 0 <= i < |fields| && fields[i].key == name && FieldIsFilledOut(fields[i].val) == Ok(true)
  {
    FilledOutFieldsSubfieldsOk(fields);
    var nonFilled := NonFilledOutFields(fields).value;
    NonFilledOutFieldsOk(fields);
    KeepFilledKeys(fields, nonFilled, name);
    NonFilledOutFieldsMembers(fields, name);
    if name in Keys(FilledOutFieldsSubfields(fields).value) {
      var i :| 0 <= i < |fields| && fields[i].key == name && name !in nonFilled;
      assert FieldIsFilledOut(fields[i].val).Ok?;
    }
    if exists i :: 0 <= i < |fields| && fields[i].key == name && FieldIsFilledOut(fields[i].val) == Ok(true) {
      var i :| 0 <= i < |fields| && fields[i].key == name && FieldIsFilledOut(fields[i].val) == Ok(true);
      forall j | 0 <= j < |fields| && fields[j].key == name
        ensures FieldIsFilledOut(fields[j].val) == Ok(true)
      {
        assert j == i;
      }
      assert name !in nonFilled;
    }
  }

  lemma {:induction false} KeepFilledKeys(fields: seq<Item>, nonFilled: seq<string>, name: string)
    requires KeepFilled(fields, nonFilled).Ok?
    ensures name in Keys(KeepFilled(fields, nonFilled).value) <==>
      exists i :: 0 <= i < |fields| && fields[i].key == name && name !in nonFilled
  {
    if fields != [] {
      var init := fields[..|fields| - 1];
      assert forall i :: 0 <= i < |init| ==> init[i] == fields[i];
      KeepFilledKeys(init, nonFilled, name);
      var prev := KeepFilled(init, nonFilled).value;
      var last := fields[|fields| - 1];
      if last.key !in nonFilled {
        var v := PruneValue(last.val).value;
        assert Keys(prev + [Item(last.key, v)]) == Keys(prev) + [last.key];
      }
    }
  }

  /** Every kept item is a field outside the non-filled listing, carrying that field's pruned value. */
  lemma {:induction false} KeepFilledValues(fields: seq<Item>, nonFilled: seq<string>, it: Item)
    requires KeepFilled(fields, nonFilled).Ok?
    ensures it in KeepFilled(fields, nonFilled).value ==>
      exists i :: 0 <= i < |fields| && fields[i].key == it.key && fields[i].key !in nonFilled && PruneValue(fields[i].val) == Ok(it.val)
  {
    if fields != [] {
      var init := fields[..|fields| - 1];
      assert forall i :: 0 <= i < |init| ==> init[i] == fields[i];
      KeepFilledValues(init, nonFilled, it);
      var last := fields[|fields| - 1];
      if it in KeepFilled(fields, nonFilled).value && it !in KeepFilled(init, nonFilled).value {
        assert it == Item(last.key, PruneValue(last.val).value);
      }
    }
  }

  /** Every field outside the non-filled listing is kept, with its pruned value. */
  lemma {:induction false} KeepFilledComplete(fields: seq<Item>, nonFilled: seq<string>, i: nat)
    requires KeepFilled(fields, nonFilled).Ok?
    requires i < |fields| && fields[i].key !in nonFilled
    ensures PruneValue(fields[i].val).Ok?
    ensures Item(fields[i].key, PruneValue(fields[i].val).value) in KeepFilled(fields, nonFilled).value
  {
    var init := fields[..|fields| - 1];
    if i < |init| {
      assert init[i] == fields[i];
      KeepFilledComplete(init, nonFilled, i);
    }
  }

  /** `it` is some filled field of `fields` with its unfilled subfields dropped. */
  predicate IsPrunedFilledField(fields: seq<Item>, it: Item)
  {
    exists i :: 0 <= i < |fields| && fields[i].key == it.key &&
      FieldIsFilledOut(fields[i].val) == Ok(true) && PruneValue(fields[i].val) == Ok(it.val)
  }

  /**
   * The values of the result: every item is a filled field with its unfilled subfields dropped,
   * and, with distinct names, every filled field appears so.
   */
  lemma {:induction false} FilledOutFieldsSubfieldsValues(fields: seq<Item>, it: Item)
    requires FilledOutFieldsSubfields(fields).Ok?
    ensures it in FilledOutFieldsSubfields(fields).value ==> IsPrunedFilledField(fields, it)
    ensures DistinctKeys(fields) && IsPrunedFilledField(fields, it) ==> it in FilledOutFieldsSubfields(fields).value
  {
    FilledOutFieldsSubfieldsOk(fields);
    var nonFilled := NonFilledOutFields(fields).value;
    NonFilledOutFieldsOk(fields);
    NonFilledOutFieldsMembers(fields, it.key);
    KeepFilledValues(fields, nonFilled, it);
    if it in FilledOutFieldsSubfields(fields).value {
      var i :| 0 <= i < |fields| && fields[i].key == it.key && fields[i].key !in nonFilled && PruneValue(fields[i].val) == Ok(it.val);
      assert FieldIsFilledOut(fields[i].val).Ok?;
    }
    if DistinctKeys(fields) && IsPrunedFilledField(fields, it) {
      var i :| 0 <= i < |fields| && fields[i].key == it.key &&
        FieldIsFilledOut(fields[i].val) == Ok(true) && PruneValue(fields[i].val) == Ok(it.val);
      forall j | 0 <= j < |fields| && fields[j].key == it.key
        ensures FieldIsFilledOut(fields[j].val) == Ok(true)
      {
        assert j == i;
      }
      assert it.key !in nonFilled;
      KeepFilledComplete(fields, nonFilled, i);
      assert it == Item(fields[i].key, PruneValue(fields[i].val).value);
    }
  }

  /** A pruned dict keeps exactly its filled entries. */
  lemma {:induction false} PruneSubfieldsMembers(d: seq<Item>, e: Item)
    requires PruneSubfields(d).Ok?
    ensures e in PruneSubfields(d).value <==> e in d && FieldIsFilledOut(e.val) == Ok(true)
  {
    if d != [] {
      var init := d[..|d| - 1];
      PruneSubfieldsMembers(init, e);
      assert d == init + [d[|d| - 1]];
    }
  }

  /** `get_filled_out_fields_subfields`: copy the filled fields, then drop the unfilled subfields of dicts. */
  method GetFilledOutFieldsSubfields(fields: seq<Item>) returns (r: Result<seq<Item>>)
    ensures r == FilledOutFieldsSubfields(fields)
  {
    var check := NonFilledOutFieldsLoop(fields);
    if check.Err? {
      return Err(check.error);
    }
    var nonFilled := check.value;
    var output: seq<Item> := [];
    for i := 0 to |fields|
      invariant KeepFilled(fields[..i], nonFilled) == Ok(output)
    {
      assert fields[..i + 1][..i] == fields[..i];
      var f := fields[i];
      if f.key !in nonFilled {
        var v := f.val;
        if v.PDict? {
          var kept := PruneSubfieldsLoop(v.items);
          if kept.Err? {
            KeepFilledErrAt(fields, nonFilled, i, kept.error);
            return Err(kept.error);
          }
          v := PDict(kept.value);
        }
        output := output + [Item(f.key, v)];
      }
    }
    assert fields[..|fields|] == fields;
    r := Ok(output);
  }

  /** The inner loop of `get_filled_out_fields_subfields`: check each subfield, keep the filled ones. */
  method PruneSubfieldsLoop(d: seq<Item>) returns (r: Result<seq<Item>>)
    ensures r == PruneSubfields(d)
  {
    var kept: seq<Item> := [];
    for j := 0 to |d|
      invariant PruneSubfields(d[..j]) == Ok(kept)
    {
      assert d[..j + 1][..j] == d[..j] && d[..j + 1][j] == d[j];
      var sub := FieldIsFilledOut(d[j].val);
      if sub.Err? {
        assert PruneSubfields(d[..j + 1]) == Err(sub.error);
        PruneSubfieldsErrPrefix(d, j + 1, sub.error);
        return Err(sub.error);
      }
      if sub.value {
        kept := kept + [d[j]];
      }
    }
    assert d[..|d|] == d;
    r := Ok(kept);
  }

  lemma {:induction false} PruneSubfieldsErrPrefix(d: seq<Item>, i: nat, e: PyError)
    requires i <= |d| && PruneSubfields(d[..i]) == Err(e)
    ensures PruneSubfields(d) == Err(e)
    decreases |d| - i
  {
    if i < |d| {
      assert d[..i + 1][..i] == d[..i];
      PruneSubfieldsErrPrefix(d, i + 1, e);
    } else {
      assert d[..i] == d;
    }
  }

  /** A kept field whose pruning raises makes the whole selection raise with that error. */
  lemma {:induction false} KeepFilledErrAt(fields: seq<Item>, nonFilled: seq<string>, i: nat, e: PyError)
    requires i < |fields| && KeepFilled(fields[..i], nonFilled).Ok?
    requires fields[i].key !in nonFilled && PruneValue(fields[i].val) == Err(e)
    ensures KeepFilled(fields, nonFilled) == Err(e)
  {
    assert fields[..i + 1][..i] == fields[..i] && fields[..i + 1][i] == fields[i];
    assert KeepFilled(fields[..i + 1], nonFilled) == Err(e);
    KeepFilledErrPrefix(fields, nonFilled, i + 1, e);
  }

  lemma {:induction false} KeepFilledErrPrefix(fields: seq<Item>, nonFilled: seq<string>, n: nat, e: PyError)
    requires n <= |fields| && KeepFilled(fields[..n], nonFilled) == Err(e)
    ensures KeepFilled(fields, nonFilled) == Err(e)
    decreases |fields| - n
  {
    if n < |fields| {
      assert fields[..n + 1][..n] == fields[..n];
      KeepFilledErrPrefix(fields, nonFilled, n + 1, e);
    } else {
      assert fields[..n] == fields;
    }
  }

  // ---------------------------------------------------------------------------
  // get_str_field_names
  // ---------------------------------------------------------------------------

  /** The declared type of a dataclass field (Python flattens nested `Annotated`). */
  datatype PyType = StrT | IntT | ListT(elem: PyType) | DictT(key: PyType, val: PyType) | LiteralT | Annotated(origin: PyType)

  datatype FieldDecl = FieldDecl(name: string, typ: PyType)

  /** A prompt-parameter dataclass: its qualified name and its fields in declaration order. */
  datatype ParamsClass = ParamsClass(qualname: string, fields: seq<FieldDecl>)

  /** `f.type == str`, or `Annotated[...]` whose first argument is `str`. */
  predicate IsStrType(t: PyType)
  {
    t == StrT || (t.Annotated? && t.origin == StrT)
  }

  /** `get_str_field_names`. */
  function StrFieldNames(fields: seq<FieldDecl>): (r: seq<string>)
    ensures |r| <= |fields|
  {
    if fields == [] then []
    else (if IsStrType(fields[0].typ) then [fields[0].name] else []) + StrFieldNames(fields[1..])
  }

  /** A name is selected exactly when some field with that name has a string type. */
  lemma {:induction false} StrFieldNamesMembers(fields: seq<FieldDecl>, name: string)
    ensures name in StrFieldNames(fields) <==>
      exists i :: 0 <= i < |fields| && fields[i].name == name && IsStrType(fields[i].typ)
  {
    if fields != [] {
      StrFieldNamesMembers(fields[1..], name);
      if name in StrFieldNames(fields[1..]) {
        var i :| 0 <= i < |fields[1..]| && fields[1..][i].name == name && IsStrType(fields[1..][i].typ);
        assert fields[i + 1] == fields[1..][i];
      }
      if exists i :: 0 <= i < |fields| && fields[i].name == name && IsStrType(fields[i].typ) {
        var i :| 0 <= i < |fields| && fields[i].name == name && IsStrType(fields[i].typ);
        if i > 0 {
          assert fields[1..][i - 1] == fields[i];
        }
      }
    }
  }

  /** The selection keeps declaration order: it is the string fields of the prefix then of the rest. */
  lemma {:induction false} StrFieldNamesAppend(a: seq<FieldDecl>, b: seq<FieldDecl>)
    ensures StrFieldNames(a + b) == StrFieldNames(a) + StrFieldNames(b)
  {
    if a == [] {
      assert a + b == b;
    } else {
      var head := if IsStrType(a[0].typ) then [a[0].name] else [];
      assert (a + b)[0] == a[0] && (a + b)[1..] == a[1..] + b;
      assert StrFieldNames(a + b) == head + StrFieldNames(a[1..] + b);
      StrFieldNamesAppend(a[1..], b);
      assert StrFieldNames(a) == head + StrFieldNames(a[1..]);
    }
  }

  /** `TCRevisionParams`: a single field `mnemonic: str`. */
  const TC_REVISION_PARAMS := ParamsClass("TCRevisionParams", [FieldDecl("mnemonic", StrT)])

  lemma TcRevisionStrFields()
    ensures StrFieldNames(TC_REVISION_PARAMS.fields) == ["mnemonic"]
  {
  }

  // ---------------------------------------------------------------------------
  // The cases pinned by the tests of `non_filled_out_fields`
  // ---------------------------------------------------------------------------

  function Simple(field1: PValue, field2: PValue): seq<Item>
  {
    [Item("field1", field1), Item("field2", field2)]
  }

  function D2(a: PValue, b: PValue): PValue
  {
    PDict([Item("k1", a), Item("k2", b)])
  }

  lemma D2Shape(a: PValue, b: PValue)
    ensures AllStr(D2(a, b).items) <==> a.PStr? && b.PStr?
    ensures AllEmptyStr(D2(a, b).items) <==> a == PStr("") && b == PStr("")
    ensures AllDict(D2(a, b).items) <==> a.PDict? && b.PDict?
  {
    var d := D2(a, b).items;
    assert d[0].val == a && d[1].val == b;
  }

  lemma OneField(x: Item)
    ensures FieldIsFilledOut(x.val) == Ok(false) ==> NonFilledOutFields([x]) == Ok([x.key])
    ensures FieldIsFilledOut(x.val) == Ok(true) ==> NonFilledOutFields([x]) == Ok([])
  {
    assert [x][..0] == [];
    assert NonFilledOutFields([x][..0]) == Ok([]);
    assert [] + [x.key] == [x.key];
  }

  lemma NonFilledOutFieldsTestCases()
    ensures NonFilledOutFields(Simple(PStr("bla"), D2(PStr("a"), PStr("b")))) == Ok([])
    ensures NonFilledOutFields(Simple(PStr("bla"), D2(PStr(""), PStr("b")))) == Ok([])
    ensures NonFilledOutFields(Simple(PStr(""), D2(PStr("a"), PStr("b")))) == Ok(["field1"])
    ensures NonFilledOutFields(Simple(PStr("bla"), D2(PStr(""), PStr("")))) == Ok(["field2"])
    ensures NonFilledOutFields(Simple(PStr(""), D2(PStr(""), PStr("")))) == Ok(["field1", "field2"])
  {
    D2Shape(PStr("a"), PStr("b"));
    D2Shape(PStr(""), PStr("b"));
    D2Shape(PStr(""), PStr(""));
    OneField(Item("field1", PStr("")));
    OneField(Item("field1", PStr("bla")));
    assert ["field1"] + ["field2"] == ["field1", "field2"] && [] + ["field2"] == ["field2"];
    assert Simple(PStr(""), D2(PStr(""), PStr("")))[..1] == [Item("field1", PStr(""))];
    assert Simple(PStr("bla"), D2(PStr(""), PStr("")))[..1] == [Item("field1", PStr("bla"))];
    assert Simple(PStr("bla"), D2(PStr("a"), PStr("b")))[..1] == [Item("field1", PStr("bla"))];
    assert Simple(PStr("bla"), D2(PStr(""), PStr("b")))[..1] == [Item("field1", PStr("bla"))];
    assert Simple(PStr(""), D2(PStr("a"), PStr("b")))[..1] == [Item("field1", PStr(""))];
  }

  /** The two type-error expectations of the same test. */
  lemma NonFilledOutFieldsTypeErrorCases()
    ensures NonFilledOutFields(Simple(POther, D2(PStr("a"), PStr("b")))) == Err(PromptFieldTypeError)
    ensures NonFilledOutFields(Simple(PStr(""), D2(POther, PStr("b")))) == Err(PromptFieldTypeError)
  {
    D2Shape(PStr("a"), PStr("b"));
    D2Shape(POther, PStr("b"));
    OneField(Item("field1", PStr("")));
    assert Simple(POther, D2(PStr("a"), PStr("b")))[..1] == [Item("field1", POther)];
    assert Simple(PStr(""), D2(POther, PStr("b")))[..1] == [Item("field1", PStr(""))];
  }
}
