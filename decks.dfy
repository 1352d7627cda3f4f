/**
 * Deck records and the deck repository, as the deck tabs use them
 * (`omakase/backend/decks.py`). The repository and the filter-label table are
 * supplied as functions: their implementations are not part of this model.
 */
module Decks {
  import opened Wrappers

  type DeckName = string

  /** The `Card` record. */
  datatype Card = Card(cardId: int, noteId: int, sortFieldValue: string, dueValue: int,
                       noteType: string, noteFields: map<string, string>)

  /**
   * `get_cards_from_deck(deck_name, om_filter_code)`, the code of a filter label
   * (`filter_label_obj_corr[label].code`), and the label of the "all notes" filter.
   */
  datatype Repository = Repository(getCards: (Option<DeckName>, int) -> seq<Card>,
                                   filterCode: string -> int,
                                   allNotesLabel: string)

  /**
   * What a card-editor display ends in: nothing (no index), the editor for a card, the
   * error shown to the user, or an exception that escapes the display.
   */
  datatype CardView = NoEditor | Editor(card: Card) | ErrorDisplayed | Raised(error: PyError)

  /** The cards of `deck` under filter label `filterLabel`. */
  function CardsFor(repo: Repository, deck: Option<DeckName>, filterLabel: string): seq<Card>
  {
    repo.getCards(deck, repo.filterCode(filterLabel))
  }

  /** Python's `s[i]`: negative indices count from the end; anything else raises IndexError. */
  function PyIndex<T>(s: seq<T>, i: int): (r: Result<T>)
    ensures r.Ok? <==> -|s| <= i < |s|
    ensures r.Err? ==> r.error == IndexError
  {
    if 0 <= i < |s| then Ok(s[i])
    else if -|s| <= i < 0 then Ok(s[|s| + i])
    else Err(IndexError)
  }

  /** A non-negative index reads that element, and `i - len(s)` names the same one. */
  lemma PyIndexNegativeAlias<T>(s: seq<T>, i: int)
    requires 0 <= i < |s|
    ensures PyIndex(s, i) == Ok(s[i])
    ensures PyIndex(s, i - |s|) == PyIndex(s, i)
  {
  }
}
