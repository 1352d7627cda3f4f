/**
 * The web user's cookie-level storage (`app.storage.user`) and `init_user_storage`,
 * which `omakase/frontend/web_user.py` and `omakase/frontend/user.py` define identically.
 */
module WebUser {
  import OmUser

  type Value = OmUser.Value

  const AUTH_STATUS_KEY := "is_logged"
  const AUTH_STATUS_DEFAULT: Value := OmUser.Bool(false)
  const USERNAME_KEY := "username"
  const USERNAME_DEFAULT: Value := OmUser.Null
  const LAST_SELECTED_DECK_KEY := "last_selected_deck"
  const LAST_SELECTED_DECK_DEFAULT: Value := OmUser.Null

  /** The storage after `init_user_storage`: three "set if missing" writes, in source order. */
  function WithDefaults(m: map<string, Value>): (r: map<string, Value>)
    ensures r.Keys == m.Keys + {AUTH_STATUS_KEY, USERNAME_KEY, LAST_SELECTED_DECK_KEY}
    ensures forall k :: k in m ==> r[k] == m[k]
  {
    OmUser.WithDefault(OmUser.WithDefault(OmUser.WithDefault(m, AUTH_STATUS_KEY, AUTH_STATUS_DEFAULT),
      USERNAME_KEY, USERNAME_DEFAULT), LAST_SELECTED_DECK_KEY, LAST_SELECTED_DECK_DEFAULT)
  }

  /**
   * The three keys are present afterwards; a missing key gets its default (False, None,
   * None); a present key keeps its value; no other key changes; a second call changes nothing.
   */
  lemma WithDefaultsSpec(m: map<string, Value>)
    ensures WithDefaults(m).Keys == m.Keys + {AUTH_STATUS_KEY, USERNAME_KEY, LAST_SELECTED_DECK_KEY}
    ensures forall k :: k in m ==> WithDefaults(m)[k] == m[k]
    ensures AUTH_STATUS_KEY !in m ==> WithDefaults(m)[AUTH_STATUS_KEY] == OmUser.Bool(false)
    ensures USERNAME_KEY !in m ==> WithDefaults(m)[USERNAME_KEY] == OmUser.Null
    ensures LAST_SELECTED_DECK_KEY !in m ==> WithDefaults(m)[LAST_SELECTED_DECK_KEY] == OmUser.Null
    ensures WithDefaults(WithDefaults(m)) == WithDefaults(m)
  {
  }

  /** `app.storage.user`. */
  class UserStorage {
    var data: map<string, Value>

    constructor (data: map<string, Value>)
      ensures this.data == data
    {
      this.data := data;
    }

    /** `init_user_storage`: three conditional `update` calls. */
    method InitUserStorage()
      modifies this
      ensures data == WithDefaults(old(data))
    {
      if AUTH_STATUS_KEY !in data {
        data := data[AUTH_STATUS_KEY := AUTH_STATUS_DEFAULT];
      }
      if USERNAME_KEY !in data {
        data := data[USERNAME_KEY := USERNAME_DEFAULT];
      }
      if LAST_SELECTED_DECK_KEY !in data {
        data := data[LAST_SELECTED_DECK_KEY := LAST_SELECTED_DECK_DEFAULT];
      }
    }
  }
}
