/**
 * `MnemonicNoteFieldMapData` of `omakase/backend/mnemonics/base.py` (and its copy in
 * `omakase/backend/mnemonics.py`): the per-user association of the string prompt
 * parameters of one prompt-parameter class, and of the generation output, to the
 * fields of one note type.
 *
 * A note field name is stored as `Str(name)`, "no field" as `Null`.
 */
module NoteFieldMap {
  import opened Wrappers
  import opened OmUser
  import PromptParams

  /** An association value the sanitizer keeps: None, or one of the note type's fields. */
  predicate ValidAssoc(v: Value, noteFields: seq<string>)
  {
    v == Null || (v.Str? && v.s in noteFields)
  }

  /**
   * The associations the sanitizer's docstring promises: only string prompt parameters
   * remain, and a value naming no existing note field becomes None.
   */
  function Sanitized(assocs: map<string, Value>, strNames: seq<string>, noteFields: seq<string>): (r: map<string, Value>)
    ensures r.Keys <= assocs.Keys
    ensures forall k :: k in r ==> k in strNames && ValidAssoc(r[k], noteFields)
  {
    map k | k in assocs && k in strNames :: if ValidAssoc(assocs[k], noteFields) then assocs[k] else Null
  }

  /** Keys, values and stability of a sanitized map. */
  lemma SanitizedSpec(assocs: map<string, Value>, strNames: seq<string>, noteFields: seq<string>)
    ensures forall k :: k in Sanitized(assocs, strNames, noteFields) <==> k in assocs && k in strNames
    ensures forall k :: k in Sanitized(assocs, strNames, noteFields) ==> ValidAssoc(Sanitized(assocs, strNames, noteFields)[k], noteFields)
    ensures forall k :: k in assocs && k in strNames && ValidAssoc(assocs[k], noteFields) ==>
      Sanitized(assocs, strNames, noteFields)[k] == assocs[k]
    ensures forall k :: k in assocs && k in strNames && !ValidAssoc(assocs[k], noteFields) ==>
      Sanitized(assocs, strNames, noteFields)[k] == Null
    ensures Sanitized(Sanitized(assocs, strNames, noteFields), strNames, noteFields) == Sanitized(assocs, strNames, noteFields)
  {
  }

  /** A map that already satisfies the sanitizer's rules is left exactly as it is. */
  lemma {:induction false} SanitizedKeepsClean(assocs: map<string, Value>, strNames: seq<string>, noteFields: seq<string>)
    requires forall k :: k in assocs ==> k in strNames && ValidAssoc(assocs[k], noteFields)
    ensures Sanitized(assocs, strNames, noteFields) == assocs
  {
    assert forall k :: k in assocs <==> k in Sanitized(assocs, strNames, noteFields);
  }

  /**
   * `_sanitize_prompt_note_assocs` as its docstring intends: a first pass drops the
   * parameter keys that are not string parameters, a second resets unknown field names.
   */
  method SanitizePromptNoteAssocs(assocs: map<string, Value>, strNames: seq<string>, noteFields: seq<string>)
    returns (r: map<string, Value>)
    ensures r == Sanitized(assocs, strNames, noteFields)
  {
    r := assocs;
    var todo := assocs.Keys;
    while todo != {}
      invariant todo <= assocs.Keys
      invariant forall k :: k in r <==> k in assocs && (k in todo || k in strNames)
      invariant forall k :: k in r ==> r[k] == assocs[k]
      decreases todo
    {
      var k :| k in todo;
      if k !in strNames {
        r := r - {k};
      }
      todo := todo - {k};
    }
    ghost var kept := r;
    todo := r.Keys;
    while todo != {}
      invariant todo <= r.Keys && r.Keys == kept.Keys
      invariant forall k :: k in r ==> r[k] == if k in todo || ValidAssoc(kept[k], noteFields) then kept[k] else Null
      decreases todo
    {
      var k :| k in todo;
      if !ValidAssoc(r[k], noteFields) {
        r := r[k := Null];
      }
      todo := todo - {k};
    }
  }

  /**
   * The first pass as written, over the keys in insertion order: it deletes from the dict
   * while iterating over its keys, and CPython's dict iterator raises RuntimeError at the
   * step after any size change, the final one included. So the pass either meets no
   * stale key and leaves the dict as it was, or raises at the first stale key.
   */
  function FirstPassAsWritten(assocs: map<string, Value>, keys: seq<string>, strNames: seq<string>): (r: Result<map<string, Value>>)
    ensures r.Err? ==> r.error == RuntimeError
    ensures r.Ok? ==> r.value == assocs
    ensures r.Err? <==> exists i :: 0 <= i < |keys| && keys[i] !in strNames
  {
    if keys == [] then Ok(assocs)
    else
      var init := keys[..|keys| - 1];
      assert forall i :: 0 <= i < |init| ==> init[i] == keys[i];
      match FirstPassAsWritten(assocs, init, strNames)
      case Err(e) => Err(e)
      case Ok(d) => if keys[|keys| - 1] in strNames then Ok(d) else Err(RuntimeError)
  }

  /**
   * `_sanitize_prompt_note_assocs` as written: the first pass as above, then, when it did
   * not raise, the second pass.
   */
  method SanitizeAsWritten(assocs: map<string, Value>, keys: seq<string>, strNames: seq<string>, noteFields: seq<string>)
    returns (r: Result<map<string, Value>>)
    requires forall k :: k in assocs <==> k in keys
    requires forall i, j :: 0 <= i < j < |keys| ==> keys[i] != keys[j]
    ensures FirstPassAsWritten(assocs, keys, strNames).Err? ==> r == Err(RuntimeError)
    ensures FirstPassAsWritten(assocs, keys, strNames).Ok? ==> r == Ok(Sanitized(assocs, strNames, noteFields))
    ensures r.Err? <==> exists k :: k in assocs && k !in strNames
  {
    var d := assocs;
    var size := |assocs|;
    var i := 0;
    while true
      invariant 0 <= i <= |keys|
      invariant forall k :: k in d <==> k in assocs
      invariant forall k :: k in d ==> d[k] == assocs[k]
      invariant FirstPassAsWritten(assocs, keys[..i], strNames) == Ok(assocs)
      decreases |keys| - i
    {
      if i == |keys| {
        break;
      }
      var k := keys[i];
      assert keys[..i + 1][..i] == keys[..i];
      if k !in strNames {
        d := d - {k};
        // the iterator notices the size change at its next step
        assert |d| < size by {
          assert d.Keys < assocs.Keys;
        }
        FirstPassErrExtends(assocs, keys, i + 1, strNames);
        return Err(RuntimeError);
      }
      i := i + 1;
    }
    assert keys[..i] == keys;
    var clean := SanitizePromptNoteAssocs(d, strNames, noteFields);
    assert d == assocs;
    return Ok(clean);
  }

  /** Once a prefix of the keys raises, so does the whole pass. */
  lemma FirstPassErrExtends(assocs: map<string, Value>, keys: seq<string>, n: nat, strNames: seq<string>)
    requires n <= |keys|
    requires FirstPassAsWritten(assocs, keys[..n], strNames).Err?
    ensures FirstPassAsWritten(assocs, keys, strNames).Err?
  {
    var i :| 0 <= i < n && keys[..n][i] !in strNames;
    assert keys[i] !in strNames;
  }

  /** The smallest stale association: a parameter renamed since it was stored. */
  lemma StaleKeyRaises()
    ensures FirstPassAsWritten(map["old_name" := Null], ["old_name"], ["mnemonic"]) == Err(RuntimeError)
  {
    assert ["old_name"][0] !in ["mnemonic"];
  }

  /** The instance attributes the mapper's constructor assigns (lines 423-434 of `omakase/backend/mnemonics/base.py`). */
  const MAPPER_INSTANCE_ATTRS: set<string> :=
    {"_om_username", "_note_field_names", "_prompt_params_class", "_assocs_root_keys", "_prompt_note_assocs"}

  /** The methods the mapper's class defines, which an attribute read also finds. */
  const MAPPER_CLASS_ATTRS: set<string> :=
    {"__init__", "genout_is_associated_to_note_field", "point_to_genout_note_field_dp", "point_to_prompt_note_assoc_dp",
     "_point_to_prompt_note_assocs", "_sanitize_prompt_note_assocs"}

  /** The attribute `genout_is_associated_to_note_field` reads. */
  const GENOUT_ATTR := "genout_note_assocs"

  /** The key path of all associations for one note type and one prompt-parameter class. */
  function RootKeys(noteType: string, params: PromptParams.ParamsClass): (r: seq<string>)
    ensures |r| == 3 && r[0] == MNEM_NOTE_ASSOCS_KEY
  {
    [MNEM_NOTE_ASSOCS_KEY, noteType, params.qualname]
  }

  class MnemonicNoteFieldMapData {
    const store: OmUserCaches
    const user: string
    const noteFieldNames: seq<string>
    const paramsClass: PromptParams.ParamsClass
    const rootKeys: seq<string>
    /** The names an attribute read on this object finds. */
    const attrs: set<string>

    /** Where the prompt-parameter associations live in the user's cache. */
    function AssocsPath(): seq<string>
      reads this
    {
      rootKeys + [PROMPT_NOTE_ASSOCS_KEY]
    }

    predicate Valid()
      reads this, store
    {
      Lookup(store.UserCache(user), AssocsPath()).Some?
    }

    /** `_prompt_note_assocs`: the stored dict itself. */
    function PromptNoteAssocs(): map<string, Value>
      reads this, store
      requires Valid()
    {
      Lookup(store.UserCache(user), AssocsPath()).value
    }

    /** The stored generation-output association, None when not stored. */
    function GenoutValue(): Value
      reads this, store
    {
      match Lookup(store.UserCache(user), rootKeys)
      case Some(m) => if GENOUT_NOTE_ASSOCS_KEY in m then m[GENOUT_NOTE_ASSOCS_KEY] else Null
      case None => Null
    }

    /**
     * Point to the associations (creating every missing level) and sanitize them in place;
     * nothing else in the storage changes.
     */
    constructor (paramsClass: PromptParams.ParamsClass, noteType: string, noteFieldNames: seq<string>,
                 store: OmUserCaches, user: string)
      requires EnsurePath(store.UserCache(user), RootKeys(noteType, paramsClass) + [PROMPT_NOTE_ASSOCS_KEY]).Ok?
      modifies store
      ensures this.store == store && this.user == user && this.noteFieldNames == noteFieldNames
      ensures this.paramsClass == paramsClass && rootKeys == RootKeys(noteType, paramsClass)
      ensures attrs == MAPPER_INSTANCE_ATTRS + MAPPER_CLASS_ATTRS
      ensures Valid()
      ensures PromptNoteAssocs() == Sanitized(Lookup(old(store.UserCache(user)), AssocsPath()).GetOr(map[]),
                                              PromptParams.StrFieldNames(paramsClass.fields), noteFieldNames)
      ensures Lookup(EnsurePath(old(store.UserCache(user)), AssocsPath()).value, AssocsPath()).Some?
      ensures store.caches == Some(old(store.AllCaches())[user := UpdatePath(
                EnsurePath(old(store.UserCache(user)), AssocsPath()).value, AssocsPath(), PromptNoteAssocs())])
    {
      this.store := store;
      this.user := user;
      this.noteFieldNames := noteFieldNames;
      this.paramsClass := paramsClass;
      this.rootKeys := RootKeys(noteType, paramsClass);
      this.attrs := MAPPER_INSTANCE_ATTRS + MAPPER_CLASS_ATTRS;
      new;
      var path := AssocsPath();
      ghost var before := store.AllCaches();
      var cache := store.PointToOmUserCache(user);
      var reached := EnsurePath(cache, path).value;
      EnsurePathReaches(cache, path);
      var assocs := Lookup(reached, path).value;
      var clean := SanitizePromptNoteAssocs(assocs, PromptParams.StrFieldNames(paramsClass.fields), noteFieldNames);
      var updated := UpdatePath(reached, path, clean);
      UpdatePathThenLookup(reached, path, clean);
      assert store.caches.value[user := updated] == before[user := updated];
      store.SetUserCache(user, updated);
    }

    /**
     * `genout_is_associated_to_note_field` as written: it reads the attribute
     * `genout_note_assocs`, which raises AttributeError when the object has no such
     * attribute. Were it assigned, it would hold the stored generation-output field, as
     * the class docstring describes. No constructed mapper has it.
     */
    method GenoutIsAssociatedAsWritten() returns (r: Result<bool>)
      ensures r.Err? <==> GENOUT_ATTR !in attrs
      ensures r.Err? ==> r.error == AttributeError
      ensures r.Ok? ==> (r.value <==> exists f :: f in noteFieldNames && GenoutValue() == Str(f))
      ensures attrs == MAPPER_INSTANCE_ATTRS + MAPPER_CLASS_ATTRS ==> r == Err(AttributeError)
    {
      if GENOUT_ATTR !in attrs {
        return Err(AttributeError);
      }
      var v := GenoutValue();
      r := Ok(v.Str? && v.s in noteFieldNames);
    }

    /** The generation output is bound iff the stored field name is one of the note type's fields. */
    method GenoutIsAssociatedToNoteField() returns (b: bool)
      ensures b <==> exists f :: f in noteFieldNames && GenoutValue() == Str(f)
    {
      var v := GenoutValue();
      b := v.Str? && v.s in noteFieldNames;
    }
  }

  /** A freshly sanitized mapper satisfies the docstring's rules on its stored associations. */
  lemma MapperAssocsSanitized(m: map<string, Value>, params: PromptParams.ParamsClass, noteFields: seq<string>, k: string)
    requires k in Sanitized(m, PromptParams.StrFieldNames(params.fields), noteFields)
    ensures exists i :: 0 <= i < |params.fields| && params.fields[i].name == k && PromptParams.IsStrType(params.fields[i].typ)
    ensures ValidAssoc(Sanitized(m, PromptParams.StrFieldNames(params.fields), noteFields)[k], noteFields)
  {
    PromptParams.StrFieldNamesMembers(params.fields, k);
  }
}
