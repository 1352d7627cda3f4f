/** The note-editing tab of `omakase/frontend/tabs/edit_notes.py`: its deck sanity check and its gate. */
module EditNotes {
  import opened Wrappers
  import OmUser
  import WebUser

  type Value = OmUser.Value

  /** Python's `v in deck_list` for a stored value and a list of deck names. */
  predicate InDeckList(v: Value, decks: seq<string>)
  {
    v.Str? && v.s in decks
  }

  /**
   * The dict after the deck repair of `_sanity_last_used_deck_in_storage`, run on the
   * dict `data` with its deck key `key` and that key's default `default`; or the
   * IndexError that `deck_list[0]` raises on an empty list. The om-user cache repeats the
   * same repair with its own constants (`_get_current_deck_name` of the deck tab).
   */
  function SanityLastUsedDeck(data: map<string, Value>, key: string, default: Value, decks: seq<string>): (r: Result<map<string, Value>>)
    ensures r.Err? <==> decks == []
    ensures r.Err? ==> r.error == IndexError
  {
    var current := if key in data then data[key] else OmUser.Null;
    if current == default || !InDeckList(current, decks) then
      if |decks| == 0 then Err(IndexError)
      else Ok(data[key := OmUser.Str(decks[0])])
    else Ok(data)
  }

  /**
   * A stored deck that is the default, absent or not in the list is replaced by the first
   * deck; a listed deck other than the default stays; only the deck key is written; and the
   * stored deck ends up in the list.
   */
  lemma SanityLastUsedDeckSpec(data: map<string, Value>, key: string, default: Value, decks: seq<string>)
    ensures SanityLastUsedDeck(data, key, default, decks).Ok? ==>
      var r := SanityLastUsedDeck(data, key, default, decks).value;
      && r.Keys == data.Keys + {key}
      && (forall k :: k in data && k != key ==> r[k] == data[k])
      && InDeckList(r[key], decks)
    ensures key in data && data[key] != default && InDeckList(data[key], decks)
      ==> SanityLastUsedDeck(data, key, default, decks) == Ok(data)
    ensures |decks| > 0 && (key !in data || data[key] == default || !InDeckList(data[key], decks))
      ==> SanityLastUsedDeck(data, key, default, decks) == Ok(data[key := OmUser.Str(decks[0])])
  {
  }

  /** What `_display_if_logged` ends up showing. */
  datatype Page = NotLoggedIn | NoDeckAvailable | DeckSelector(options: seq<string>)

  /** The web user's storage after the repair, on a non-empty deck list. */
  function RepairedStorage(data: map<string, Value>, decks: seq<string>): map<string, Value>
    requires decks != []
  {
    SanityLastUsedDeck(data, WebUser.LAST_SELECTED_DECK_KEY, WebUser.LAST_SELECTED_DECK_DEFAULT, decks).value
  }

  class EditNotesContent {
    const storage: WebUser.UserStorage
    /** `web_user_data.get(USERNAME_KEY)`, read once at construction. */
    const username: Value

    constructor (storage: WebUser.UserStorage)
      ensures this.storage == storage
      ensures username == if WebUser.USERNAME_KEY in storage.data then storage.data[WebUser.USERNAME_KEY] else OmUser.Null
    {
      this.storage := storage;
      username := if WebUser.USERNAME_KEY in storage.data then storage.data[WebUser.USERNAME_KEY] else OmUser.Null;
    }

    /** `_sanity_last_used_deck_in_storage`, with `decks` the repository's `list_decks()`. */
    method SanityLastUsedDeckInStorage(decks: seq<string>) returns (outcome: Result<()>)
      modifies storage
      ensures outcome.Ok? <==> decks != []
      ensures outcome.Err? ==> outcome.error == IndexError
      ensures storage.data == if outcome.Ok? then RepairedStorage(old(storage.data), decks) else old(storage.data)
    {
      var current := if WebUser.LAST_SELECTED_DECK_KEY in storage.data then storage.data[WebUser.LAST_SELECTED_DECK_KEY] else OmUser.Null;
      if current == WebUser.LAST_SELECTED_DECK_DEFAULT || !InDeckList(current, decks) {
        if |decks| == 0 {
          return Err(IndexError);
        }
        storage.data := storage.data[WebUser.LAST_SELECTED_DECK_KEY := OmUser.Str(decks[0])];
      }
      outcome := Ok(());
    }

    /**
     * `_display_if_logged`: the sanity check runs only for a logged-in user with at least
     * one deck, so its `deck_list[0]` is always defined and the stored deck ends up listed.
     */
    method DisplayIfLogged(decks: seq<string>) returns (page: Page)
      modifies storage
      ensures username == WebUser.USERNAME_DEFAULT ==> page == NotLoggedIn && storage.data == old(storage.data)
      ensures username != WebUser.USERNAME_DEFAULT && decks == [] ==> page == NoDeckAvailable && storage.data == old(storage.data)
      ensures username != WebUser.USERNAME_DEFAULT && decks != [] ==>
        && page == DeckSelector(decks)
        && storage.data == RepairedStorage(old(storage.data), decks)
        && InDeckList(storage.data[WebUser.LAST_SELECTED_DECK_KEY], decks)
    {
      if username == WebUser.USERNAME_DEFAULT {
        return NotLoggedIn;
      }
      if decks == [] {
        return NoDeckAvailable;
      }
      SanityLastUsedDeckSpec(storage.data, WebUser.LAST_SELECTED_DECK_KEY, WebUser.LAST_SELECTED_DECK_DEFAULT, decks);
      var outcome := SanityLastUsedDeckInStorage(decks);
      page := DeckSelector(decks);
    }
  }
}
