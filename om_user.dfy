/**
 * The per-user preference cache of `omakase/backend/om_user.py`.
 *
 * `app.storage.general[USER_CACHES_KEY]` is the field `caches` of one shared
 * `OmUserCaches` object. The Python functions return the user's dict itself, so
 * writes through it reach the storage; here every view keeps (storage, user name)
 * and writes through the storage object, which gives the same sharing.
 */
module OmUser {
  import opened Wrappers

  /** A JSON-like stored value. */
  datatype Value = Null | Bool(b: bool) | Str(s: string) | Dict(entries: map<string, Value>)

  const LAST_SELECTED_DECK_KEY := "last_selected_deck"
  const LAST_SELECTED_DECK_DEFAULT: Value := Null
  const DECK_UI_FILTER_CORR_KEY := "deck_filter_correspondance"
  const MNEM_NOTE_ASSOCS_KEY := "mnemn_note_assocs"
  const PROMPT_NOTE_ASSOCS_KEY := "prompt_note_assocs"
  const GENOUT_NOTE_ASSOCS_KEY := "genout_note_assocs"

  // ---------------------------------------------------------------------------
  // Nested key paths inside one user's cache
  // ---------------------------------------------------------------------------

  /** The dict reached by following `keys` from `m`, if every step is present and a dict. */
  function Lookup(m: map<string, Value>, keys: seq<string>): Option<map<string, Value>>
    decreases |keys|
  {
    if keys == [] then Some(m)
    else if keys[0] in m && m[keys[0]].Dict? then Lookup(m[keys[0]].entries, keys[1..])
    else None
  }

  /**
   * Walk `keys`, creating every missing level as an empty dict. A level that exists
   * but is not a dict is a storage-shape error.
   */
  function EnsurePath(m: map<string, Value>, keys: seq<string>): (r: Result<map<string, Value>>)
    ensures r.Err? ==> r.error == TypeError
    ensures r.Ok? ==> m.Keys <= r.value.Keys
    ensures r.Ok? && keys != [] ==> r.value.Keys == m.Keys + {keys[0]}
    ensures r.Ok? ==> forall k :: k in m && (keys == [] || k != keys[0]) ==> r.value[k] == m[k]
    decreases |keys|
  {
    if keys == [] then Ok(m)
    else
      var sub := if keys[0] in m then m[keys[0]] else Dict(map[]);
      if !sub.Dict? then Err(TypeError)
      else match EnsurePath(sub.entries, keys[1..])
        case Err(e) => Err(e)
        case Ok(sub') => Ok(m[keys[0] := Dict(sub')])
  }

  /** Replace the dict found at `keys` by `d`. */
  function UpdatePath(m: map<string, Value>, keys: seq<string>, d: map<string, Value>): map<string, Value>
    requires Lookup(m, keys).Some?
    decreases |keys|
  {
    if keys == [] then d
    else m[keys[0] := Dict(UpdatePath(m[keys[0]].entries, keys[1..], d))]
  }

  /** After lazy creation the path leads to the dict that was there, or to a new empty one. */
  lemma {:induction false} EnsurePathReaches(m: map<string, Value>, keys: seq<string>)
    requires EnsurePath(m, keys).Ok?
    ensures Lookup(EnsurePath(m, keys).value, keys) == Some(Lookup(m, keys).GetOr(map[]))
    decreases |keys|
  {
    if keys != [] {
      var sub := if keys[0] in m then m[keys[0]] else Dict(map[]);
      EnsurePathReaches(sub.entries, keys[1..]);
    }
  }

  /** Lazy creation never overwrites: an existing path leaves the cache as it was. */
  lemma {:induction false} EnsurePathKeepsExisting(m: map<string, Value>, keys: seq<string>)
    requires Lookup(m, keys).Some?
    ensures EnsurePath(m, keys) == Ok(m)
    decreases |keys|
  {
    if keys != [] {
      EnsurePathKeepsExisting(m[keys[0]].entries, keys[1..]);
      assert m[keys[0] := Dict(m[keys[0]].entries)] == m;
    }
  }

  /** Lazy creation fails exactly when some existing level on the path is not a dict. */
  lemma {:induction false} EnsurePathFailsOnlyOnShape(m: map<string, Value>, keys: seq<string>)
    ensures EnsurePath(m, keys).Err? <==>
      exists i :: 0 <= i < |keys| && Lookup(m, keys[..i]).Some? &&
        keys[i] in Lookup(m, keys[..i]).value && !Lookup(m, keys[..i]).value[keys[i]].Dict?
    decreases |keys|
  {
    if keys != [] {
      var k := keys[0];
      assert keys[..0] == [];
      if k in m && m[k].Dict? {
        EnsurePathFailsOnlyOnShape(m[k].entries, keys[1..]);
        forall i | 1 <= i <= |keys|
          ensures Lookup(m, keys[..i]) == Lookup(m[k].entries, keys[1..][..i - 1])
        {
          assert keys[..i][0] == k && keys[..i][1..] == keys[1..][..i - 1];
        }
        if EnsurePath(m, keys).Err? {
          var j :| 0 <= j < |keys| - 1 && Lookup(m[k].entries, keys[1..][..j]).Some? &&
            keys[1..][j] in Lookup(m[k].entries, keys[1..][..j]).value &&
            !Lookup(m[k].entries, keys[1..][..j]).value[keys[1..][j]].Dict?;
          assert Lookup(m, keys[..j + 1]) == Lookup(m[k].entries, keys[1..][..j]);
        }
      } else if k !in m {
        EnsurePathNoShapeErrorWhenMissing(keys[1..]);
        forall i | 1 <= i <= |keys| ensures Lookup(m, keys[..i]) == None {
          assert keys[..i][0] == k;
        }
      }
    }
  }

  /** Creating a path inside a fresh empty dict cannot fail. */
  lemma {:induction false} EnsurePathNoShapeErrorWhenMissing(keys: seq<string>)
    ensures EnsurePath(map[], keys).Ok?
    decreases |keys|
  {
    if keys != [] {
      EnsurePathNoShapeErrorWhenMissing(keys[1..]);
    }
  }

  /** Writing at a path and reading it back returns what was written. */
  lemma {:induction false} UpdatePathThenLookup(m: map<string, Value>, keys: seq<string>, d: map<string, Value>)
    requires Lookup(m, keys).Some?
    ensures Lookup(UpdatePath(m, keys, d), keys) == Some(d)
    decreases |keys|
  {
    if keys != [] {
      UpdatePathThenLookup(m[keys[0]].entries, keys[1..], d);
    }
  }

  // ---------------------------------------------------------------------------
  // The storage of every user's cache
  // ---------------------------------------------------------------------------

  /** `app.storage.general[USER_CACHES_KEY]`: None while the key is absent. */
  class OmUserCaches {
    var caches: Option<map<string, map<string, Value>>>

    predicate HasUser(user: string)
      reads this
    {
      caches.Some? && user in caches.value
    }

    /** The user's dict, or the empty dict that would be created for an unseen user. */
    function UserCache(user: string): map<string, Value>
      reads this
    {
      if HasUser(user) then caches.value[user] else map[]
    }

    /** Every user's dict, with an absent top-level key read as empty. */
    function AllCaches(): map<string, map<string, Value>>
      reads this
    {
      caches.GetOr(map[])
    }

    constructor ()
      ensures caches == None
    {
      caches := None;
    }

    /** `_point_to_om_user_caches`: create the top-level dict if absent, then return it. */
    method PointToOmUserCaches() returns (r: map<string, map<string, Value>>)
      modifies this
      ensures caches == Some(old(AllCaches()))
      ensures r == caches.value
    {
      if caches.None? {
        caches := Some(map[]);
      }
      r := caches.value;
    }

    /** `point_to_om_user_cache`: an unseen user gets an empty dict; a known one is never overwritten. */
    method PointToOmUserCache(user: string) returns (cache: map<string, Value>)
      modifies this
      ensures caches == Some(old(AllCaches())[user := old(UserCache(user))])
      ensures HasUser(user) && cache == UserCache(user) == old(UserCache(user))
    {
      var userCaches := PointToOmUserCaches();
      if user !in userCaches {
        caches := Some(userCaches[user := map[]]);
      } else {
        assert userCaches[user := userCaches[user]] == userCaches;
      }
      cache := caches.value[user];
    }

    /** `user_cache[key] = v` on an existing user dict. */
    method SetEntry(user: string, key: string, v: Value)
      requires HasUser(user)
      modifies this
      ensures caches == Some(old(caches.value)[user := old(UserCache(user))[key := v]])
    {
      caches := Some(caches.value[user := caches.value[user][key := v]]);
    }

    /** Write a whole (already reached) user dict back, as in-place edits of nested levels do. */
    method SetUserCache(user: string, c: map<string, Value>)
      requires HasUser(user)
      modifies this
      ensures caches == Some(old(caches.value)[user := c])
    {
      caches := Some(caches.value[user := c]);
    }

    /** `init_missing_om_user_cache`: add `last_selected_deck = None` only when absent. */
    method InitMissingOmUserCache(user: string)
      modifies this
      ensures HasUser(user)
      ensures caches == Some(old(AllCaches())[user := InitMissing(old(UserCache(user)))])
    {
      var cache := PointToOmUserCache(user);
      if LAST_SELECTED_DECK_KEY !in cache {
        ghost var before := caches.value;
        SetEntry(user, LAST_SELECTED_DECK_KEY, Null);
        assert caches.value == before[user := cache[LAST_SELECTED_DECK_KEY := Null]];
        assert before[user := cache[LAST_SELECTED_DECK_KEY := Null]]
          == old(AllCaches())[user := cache[LAST_SELECTED_DECK_KEY := Null]];
      }
    }
  }

  /**
   * A dict after a "set if missing" write: `key` is present afterwards, every existing
   * entry is kept, and only a missing `key` receives `default`.
   */
  function WithDefault(c: map<string, Value>, key: string, default: Value): (r: map<string, Value>)
    ensures r.Keys == c.Keys + {key}
    ensures forall k :: k in c ==> r[k] == c[k]
    ensures key !in c ==> r[key] == default
  {
    if key in c then c else c[key := default]
  }

  /** A second "set if missing" of the same key changes nothing, whatever its default. */
  lemma WithDefaultSticky(c: map<string, Value>, key: string, default: Value, default': Value)
    ensures WithDefault(WithDefault(c, key, default), key, default') == WithDefault(c, key, default)
    ensures WithDefault(c, key, default)[key] == if key in c then c[key] else default
  {
  }

  /** The user dict after `init_missing_om_user_cache`: `last_selected_deck` is None when missing. */
  function InitMissing(c: map<string, Value>): (r: map<string, Value>)
    ensures r.Keys == c.Keys + {LAST_SELECTED_DECK_KEY}
    ensures forall k :: k in c ==> r[k] == c[k]
    ensures LAST_SELECTED_DECK_KEY !in c ==> r[LAST_SELECTED_DECK_KEY] == Null
  {
    WithDefault(c, LAST_SELECTED_DECK_KEY, LAST_SELECTED_DECK_DEFAULT)
  }

  /** The key is present afterwards, an existing value is kept, and nothing else moves. */
  lemma InitMissingSpec(c: map<string, Value>)
    ensures LAST_SELECTED_DECK_KEY in InitMissing(c)
    ensures LAST_SELECTED_DECK_KEY in c ==> InitMissing(c) == c
    ensures LAST_SELECTED_DECK_KEY !in c ==> InitMissing(c)[LAST_SELECTED_DECK_KEY] == Null
    ensures forall k :: k in c ==> k in InitMissing(c) && InitMissing(c)[k] == c[k]
    ensures InitMissing(c).Keys == c.Keys + {LAST_SELECTED_DECK_KEY}
    ensures InitMissing(InitMissing(c)) == InitMissing(c)
  {
  }

  // ---------------------------------------------------------------------------
  // Subjects
  // ---------------------------------------------------------------------------

  /**
   * `LastSelectedDeck`, the one concrete `CachedOmUserData`: its root dict is the user's
   * dict and its subject key is `last_selected_deck`.
   */
  class LastSelectedDeck {
    const store: OmUserCaches
    const user: string
    const defaultValue: Value

    predicate Valid()
      reads this, store
    {
      store.HasUser(user) && LAST_SELECTED_DECK_KEY in store.UserCache(user)
    }

    /** The `state` getter: `root_dict[subject_key]`. */
    function State(): Value
      reads this, store
      requires Valid()
    {
      store.UserCache(user)[LAST_SELECTED_DECK_KEY]
    }

    /** Construction points to the user's dict and inserts the default only when the key is missing. */
    constructor (store: OmUserCaches, user: string, defaultValue: Value)
      modifies store
      ensures this.store == store && this.user == user && this.defaultValue == defaultValue
      ensures Valid()
      ensures store.caches == Some(old(store.AllCaches())[user := WithDefault(old(store.UserCache(user)), LAST_SELECTED_DECK_KEY, defaultValue)])
    {
      this.store := store;
      this.user := user;
      this.defaultValue := defaultValue;
      new;
      var cache := store.PointToOmUserCache(user);
      if LAST_SELECTED_DECK_KEY !in cache {
        ghost var before := store.caches.value;
        store.SetEntry(user, LAST_SELECTED_DECK_KEY, defaultValue);
        assert before[user := cache[LAST_SELECTED_DECK_KEY := defaultValue]]
          == old(store.AllCaches())[user := cache[LAST_SELECTED_DECK_KEY := defaultValue]];
      }
    }

    /** The `state` setter: writes exactly `root_dict[subject_key]`. */
    method SetState(v: Value)
      requires Valid()
      modifies store
      ensures Valid() && State() == v
      ensures store.caches == Some(old(store.caches.value)[user := old(store.UserCache(user))[LAST_SELECTED_DECK_KEY := v]])
    {
      store.SetEntry(user, LAST_SELECTED_DECK_KEY, v);
    }
  }

  /** `DeckFilterCorr`: the deck -> filter-label dict stored in the user's dict. */
  class DeckFilterCorr {
    const store: OmUserCaches
    const user: string
    /** The label of the "all notes" filter, `DeckFilters().all_notes.ui_label`. */
    const allNotesLabel: string

    predicate Valid()
      reads this, store
    {
      store.HasUser(user) && DECK_UI_FILTER_CORR_KEY in store.UserCache(user)
      && store.UserCache(user)[DECK_UI_FILTER_CORR_KEY].Dict?
    }

    /** The read-only `state` view. */
    function State(): map<string, Value>
      reads this, store
      requires Valid()
    {
      store.UserCache(user)[DECK_UI_FILTER_CORR_KEY].entries
    }

    /** Reuse the stored dict, or create an empty one under `deck_filter_correspondance`. */
    constructor (store: OmUserCaches, user: string, allNotesLabel: string)
      requires DECK_UI_FILTER_CORR_KEY in store.UserCache(user) ==> store.UserCache(user)[DECK_UI_FILTER_CORR_KEY].Dict?
      modifies store
      ensures this.store == store && this.user == user && this.allNotesLabel == allNotesLabel
      ensures Valid()
      ensures store.caches == Some(old(store.AllCaches())[user := WithDefault(old(store.UserCache(user)), DECK_UI_FILTER_CORR_KEY, Dict(map[]))])
    {
      this.store := store;
      this.user := user;
      this.allNotesLabel := allNotesLabel;
      new;
      var cache := store.PointToOmUserCache(user);
      if DECK_UI_FILTER_CORR_KEY !in cache {
        ghost var before := store.caches.value;
        store.SetEntry(user, DECK_UI_FILTER_CORR_KEY, Dict(map[]));
        assert before[user := cache[DECK_UI_FILTER_CORR_KEY := Dict(map[])]]
          == old(store.AllCaches())[user := cache[DECK_UI_FILTER_CORR_KEY := Dict(map[])]];
      }
    }

    /** `set_filter_for_deck`: change that deck's entry and no other. */
    method SetFilterForDeck(deck: string, uiLabel: string)
      requires Valid()
      modifies store
      ensures Valid() && State() == old(State())[deck := Str(uiLabel)]
      ensures store.caches == Some(old(store.caches.value)[user := old(store.UserCache(user))[DECK_UI_FILTER_CORR_KEY := Dict(State())]])
    {
      store.SetEntry(user, DECK_UI_FILTER_CORR_KEY, Dict(State()[deck := Str(uiLabel)]));
    }

    /** `get_filter_for_deck`: an unseen deck gets and returns the "all notes" label; a seen one is returned as stored. */
    method GetFilterForDeck(deck: string) returns (uiLabel: Value)
      requires Valid()
      modifies store
      ensures Valid() && State() == WithDefault(old(State()), deck, Str(allNotesLabel))
      ensures uiLabel == State()[deck]
      ensures store.caches == Some(old(store.caches.value)[user := old(store.UserCache(user))[DECK_UI_FILTER_CORR_KEY := Dict(State())]])
    {
      if deck !in State() {
        store.SetEntry(user, DECK_UI_FILTER_CORR_KEY, Dict(State()[deck := Str(allNotesLabel)]));
      } else {
        assert old(store.UserCache(user))[DECK_UI_FILTER_CORR_KEY := Dict(State())] == old(store.UserCache(user));
        assert old(store.caches.value)[user := old(store.UserCache(user))] == old(store.caches.value);
      }
      uiLabel := State()[deck];
    }
  }
}
