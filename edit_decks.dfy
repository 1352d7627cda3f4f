/**
 * The earlier deck-editing tab of `omakase/frontend/tabs/edit_decks.py`: it reads and
 * repairs the user's stored deck and filter label directly in the user cache, and keeps
 * the fetched cards in a field.
 */
module EditDecks {
  import opened Wrappers
  import opened OmUser
  import opened Decks
  import EditNotes

  /** The user's dict after the deck repair, on a non-empty deck list. */
  function RepairedCache(cache: map<string, Value>, deckList: seq<DeckName>): map<string, Value>
    requires deckList != []
  {
    EditNotes.SanityLastUsedDeck(cache, LAST_SELECTED_DECK_KEY, LAST_SELECTED_DECK_DEFAULT, deckList).value
  }

  class EditDeckContent {
    /** `om_user_data`: the user's dict in the shared cache. */
    const store: OmUserCaches
    const user: string
    const repo: Repository
    /** `_cards`. */
    var cards: seq<Card>

    predicate Valid()
      reads this, store
    {
      store.HasUser(user)
    }

    constructor (store: OmUserCaches, user: string, repo: Repository)
      modifies store
      ensures this.store == store && this.user == user && this.repo == repo && cards == []
      ensures Valid()
      ensures store.caches == Some(old(store.AllCaches())[user := old(store.UserCache(user))])
    {
      this.store := store;
      this.user := user;
      this.repo := repo;
      cards := [];
      new;
      var _ := store.PointToOmUserCache(user);
    }

    /**
     * `_get_current_deck_name`, with `deckList` the repository's `list_decks()`. With no
     * deck it returns None and writes nothing; otherwise the stored deck is repaired as on
     * the note tab, with the om-user cache's own key and default, and returned.
     */
    method GetCurrentDeckName(deckList: seq<DeckName>) returns (r: Option<DeckName>)
      requires Valid()
      modifies store
      ensures Valid()
      ensures deckList == [] ==> r.None? && store.caches == old(store.caches)
      ensures deckList != [] ==>
        && store.caches == Some(old(store.caches.value)[user := RepairedCache(old(store.UserCache(user)), deckList)])
        && r.Some? && r.value in deckList
        && store.UserCache(user)[LAST_SELECTED_DECK_KEY] == Str(r.value)
    {
      var cache := store.UserCache(user);
      var current := if LAST_SELECTED_DECK_KEY in cache then cache[LAST_SELECTED_DECK_KEY] else Null;
      if |deckList| == 0 {
        return None;
      }
      EditNotes.SanityLastUsedDeckSpec(cache, LAST_SELECTED_DECK_KEY, LAST_SELECTED_DECK_DEFAULT, deckList);
      if current == LAST_SELECTED_DECK_DEFAULT || !EditNotes.InDeckList(current, deckList) {
        store.SetEntry(user, LAST_SELECTED_DECK_KEY, Str(deckList[0]));
      } else {
        assert store.caches.value[user := cache] == store.caches.value;
      }
      var stored := store.UserCache(user)[LAST_SELECTED_DECK_KEY];
      r := Some(stored.s);
    }

    /**
     * `_get_current_filter_ui_name`: a missing filter map raises KeyError, a stored value
     * that is not a dict raises TypeError; otherwise an unseen deck gets the "all notes"
     * label, and the deck's label is returned.
     */
    method GetCurrentFilterUiName(deck: DeckName) returns (r: Result<Value>)
      requires Valid()
      modifies store
      ensures Valid()
      ensures r == Err(KeyError) <==> DECK_UI_FILTER_CORR_KEY !in old(store.UserCache(user))
      ensures r == Err(TypeError) <==>
        DECK_UI_FILTER_CORR_KEY in old(store.UserCache(user)) && !old(store.UserCache(user))[DECK_UI_FILTER_CORR_KEY].Dict?
      ensures r.Err? ==> store.caches == old(store.caches)
      ensures r.Ok? ==>
        var corr := WithDefault(old(store.UserCache(user))[DECK_UI_FILTER_CORR_KEY].entries, deck, Str(repo.allNotesLabel));
        && store.caches == Some(old(store.caches.value)[user := old(store.UserCache(user))[DECK_UI_FILTER_CORR_KEY := Dict(corr)]])
        && r.value == corr[deck]
    {
      var cache := store.UserCache(user);
      if DECK_UI_FILTER_CORR_KEY !in cache {
        return Err(KeyError);
      }
      var corr := cache[DECK_UI_FILTER_CORR_KEY];
      if !corr.Dict? {
        return Err(TypeError);
      }
      if deck !in corr.entries {
        store.SetEntry(user, DECK_UI_FILTER_CORR_KEY, Dict(corr.entries[deck := Str(repo.allNotesLabel)]));
      } else {
        assert cache[DECK_UI_FILTER_CORR_KEY := Dict(corr.entries)] == cache;
        assert store.caches.value[user := cache] == store.caches.value;
      }
      r := Ok(store.UserCache(user)[DECK_UI_FILTER_CORR_KEY].entries[deck]);
    }

    /**
     * `_assign_cards_from_deck`: the repository's cards for the deck under the label's
     * filter. The deck is None when `_get_current_deck_name` found no deck, and the
     * repository is asked for it all the same.
     */
    method AssignCardsFromDeck(deck: Option<DeckName>, filterLabel: string)
      modifies this
      ensures cards == CardsFor(repo, deck, filterLabel)
    {
      var omFilterCode := repo.filterCode(filterLabel);
      cards := repo.getCards(deck, omFilterCode);
    }

    /**
     * `_display_card_editor_if_possible`: nothing without an index; an index outside the
     * cards (Python indexing) is caught and shown as an error, never propagated.
     */
    method DisplayCardEditorIfPossible(selectedCardIndex: Option<int>) returns (view: CardView)
      ensures selectedCardIndex.None? <==> view == NoEditor
      ensures selectedCardIndex.Some? && 0 <= selectedCardIndex.value < |cards| ==>
        view == Editor(cards[selectedCardIndex.value])
      ensures view.Editor? ==> selectedCardIndex.Some? && PyIndex(cards, selectedCardIndex.value) == Ok(view.card)
      ensures selectedCardIndex.Some? ==>
        (view == ErrorDisplayed <==> !(-|cards| <= selectedCardIndex.value < |cards|))
      ensures !view.Raised?
    {
      if selectedCardIndex.None? {
        return NoEditor;
      }
      var card := PyIndex(cards, selectedCardIndex.value);
      if card.Err? {
        return ErrorDisplayed;
      }
      view := Editor(card.value);
    }
  }
}
