/**
 * The deck-editing tab of `omakase/frontend/tabs/edit_decks/deckslevel.py`: five
 * observable slots (deck names, last selected deck, deck → filter label, current cards,
 * current card index), the `_DataMediator` that keeps them consistent, and the UI
 * observers, which only redraw.
 *
 * Every slot has the mediator attached first and one UI observer second. Assigning a
 * slot stores the value and then notifies synchronously, so the mediator's own
 * assignments cascade depth-first before the UI observer of the outer slot runs.
 */
module DecksLevel {
  import opened Wrappers
  import opened Decks

  datatype Slot = DeckNamesSlot | LastSelectedDeckSlot | DeckFilterCorrSlot | CurrentCardsSlot | CurrentCardIdxSlot

  datatype UiObserver = DeckSelector | FilterSelector | DeckDisplayer | CardEditor

  datatype ObserverKind = Mediator | Ui(ui: UiObserver)

  /** The tab's data; a deck name may be None, and so may the filter map's key. */
  datatype State = State(deckNames: seq<DeckName>, lastSelectedDeck: Option<DeckName>,
                         deckFilterCorr: map<Option<DeckName>, string>,
                         currentCards: seq<Card>, currentCardIdx: Option<int>)

  /** One UI refresh, with the data it reads. */
  datatype Redraw = Redraw(ui: UiObserver, seen: State)

  /** The state after a notification, and the UI refreshes it caused, in order. */
  datatype Outcome = Outcome(st: State, log: seq<Redraw>)

  /** The UI observer attached to each slot. */
  function UiOf(slot: Slot): UiObserver
  {
    match slot
    case DeckNamesSlot => DeckSelector
    case LastSelectedDeckSlot => FilterSelector
    case DeckFilterCorrSlot => FilterSelector
    case CurrentCardsSlot => DeckDisplayer
    case CurrentCardIdxSlot => CardEditor
  }

  /** The observers attached by the tab's constructor, in attachment order: the mediator first. */
  function Attached(slot: Slot): (r: seq<ObserverKind>)
    ensures |r| == 2 && r[0] == Mediator && r[1].Ui?
  {
    [Mediator, Ui(UiOf(slot))]
  }

  /** How far a slot is from the end of the cascade. */
  function Level(slot: Slot): nat
  {
    match slot
    case DeckNamesSlot => 4
    case LastSelectedDeckSlot => 3
    case DeckFilterCorrSlot => 3
    case CurrentCardsSlot => 2
    case CurrentCardIdxSlot => 1
  }

  // ---------------------------------------------------------------------------
  // What the mediator computes
  // ---------------------------------------------------------------------------

  /** `_sanitize_current_deck_name`: keep a listed deck, else the first deck, else None. */
  function SanitizedDeck(deckNames: seq<DeckName>, last: Option<DeckName>): (r: Option<DeckName>)
    ensures r.None? <==> deckNames == []
    ensures r.Some? ==> r.value in deckNames
  {
    if last.Some? && last.value in deckNames then last
    else if |deckNames| > 0 then Some(deckNames[0])
    else None
  }

  lemma SanitizedDeckSpec(deckNames: seq<DeckName>, last: Option<DeckName>)
    ensures SanitizedDeck(deckNames, last).None? <==> deckNames == []
    ensures SanitizedDeck(deckNames, last).Some? ==> SanitizedDeck(deckNames, last).value in deckNames
    ensures last.Some? && last.value in deckNames ==> SanitizedDeck(deckNames, last) == last
    ensures (last.None? || last.value !in deckNames) && deckNames != [] ==> SanitizedDeck(deckNames, last) == Some(deckNames[0])
  {
  }

  /** The filter label of a deck; reading it stores the "all notes" label for an unseen deck. */
  function WithFilter(corr: map<Option<DeckName>, string>, deck: Option<DeckName>, allNotes: string): map<Option<DeckName>, string>
  {
    if deck in corr then corr else corr[deck := allNotes]
  }

  /** `_update_cards` before the assignment: the default filter stored, the cards fetched. */
  function Refetched(repo: Repository, st: State): State
  {
    var corr := WithFilter(st.deckFilterCorr, st.lastSelectedDeck, repo.allNotesLabel);
    st.(deckFilterCorr := corr,
        currentCards := CardsFor(repo, st.lastSelectedDeck, corr[st.lastSelectedDeck]))
  }

  // ---------------------------------------------------------------------------
  // The cascade, observer by observer
  // ---------------------------------------------------------------------------

  /** Assigning a slot: the new state is stored, then its observers are notified. */
  function SetFx(repo: Repository, slot: Slot, st: State): (r: Outcome)
    ensures r.st.deckNames == st.deckNames
    decreases Level(slot), 3, 0
  {
    NotifyFx(repo, slot, st, Attached(slot))
  }

  /** `notify` reaching the observers `obs` in order. */
  function NotifyFx(repo: Repository, slot: Slot, st: State, obs: seq<ObserverKind>): (r: Outcome)
    ensures r.st.deckNames == st.deckNames
    decreases Level(slot), 2, |obs|
  {
    if obs == [] then Outcome(st, [])
    else
      var prev := NotifyFx(repo, slot, st, obs[..|obs| - 1]);
      match obs[|obs| - 1]
      case Mediator =>
        var m := MediatorFx(repo, slot, prev.st);
        Outcome(m.st, prev.log + m.log)
      case Ui(u) => Outcome(prev.st, prev.log + [Redraw(u, prev.st)])
  }

  /**
   * `_DataMediator.update`: the handler of the notifying slot. No handler assigns the deck
   * list, so the cascade never changes it.
   */
  function MediatorFx(repo: Repository, slot: Slot, st: State): (r: Outcome)
    ensures r.st.deckNames == st.deckNames
    decreases Level(slot), 1, 0
  {
    match slot
    case DeckNamesSlot =>
      SetFx(repo, LastSelectedDeckSlot, st.(lastSelectedDeck := SanitizedDeck(st.deckNames, st.lastSelectedDeck)))
    case LastSelectedDeckSlot => SetFx(repo, CurrentCardsSlot, Refetched(repo, st))
    case DeckFilterCorrSlot => SetFx(repo, CurrentCardsSlot, Refetched(repo, st))
    case CurrentCardsSlot => SetFx(repo, CurrentCardIdxSlot, st.(currentCardIdx := None))
    case CurrentCardIdxSlot => Outcome(st, [])
  }

  // ---------------------------------------------------------------------------
  // The cascade, end to end
  // ---------------------------------------------------------------------------

  /** The state once a notification of `slot` has settled. */
  function Settled(repo: Repository, slot: Slot, st: State): State
  {
    match slot
    case DeckNamesSlot =>
      Refetched(repo, st.(lastSelectedDeck := SanitizedDeck(st.deckNames, st.lastSelectedDeck))).(currentCardIdx := None)
    case LastSelectedDeckSlot => Refetched(repo, st).(currentCardIdx := None)
    case DeckFilterCorrSlot => Refetched(repo, st).(currentCardIdx := None)
    case CurrentCardsSlot => st.(currentCardIdx := None)
    case CurrentCardIdxSlot => st
  }

  /** The UI observers refreshed, in order: the innermost slot's first. */
  function RedrawOrder(slot: Slot): seq<UiObserver>
  {
    match slot
    case DeckNamesSlot => [CardEditor, DeckDisplayer, FilterSelector, DeckSelector]
    case LastSelectedDeckSlot => [CardEditor, DeckDisplayer, FilterSelector]
    case DeckFilterCorrSlot => [CardEditor, DeckDisplayer, FilterSelector]
    case CurrentCardsSlot => [CardEditor, DeckDisplayer]
    case CurrentCardIdxSlot => [CardEditor]
  }

  function AllSee(order: seq<UiObserver>, st: State): (r: seq<Redraw>)
    ensures |r| == |order| && forall i :: 0 <= i < |order| ==> r[i] == Redraw(order[i], st)
  {
    seq(|order|, i requires 0 <= i < |order| => Redraw(order[i], st))
  }

  /**
   * A slot's notification is the mediator's whole cascade, then one redraw of the slot's
   * UI observer, which reads the state the mediator left.
   */
  lemma NotifyTwo(repo: Repository, slot: Slot, st: State)
    ensures NotifyFx(repo, slot, st, Attached(slot)) ==
      var m := MediatorFx(repo, slot, st);
      Outcome(m.st, m.log + [Redraw(UiOf(slot), m.st)])
  {
    var obs := Attached(slot);
    assert obs[..1][..0] == [] && obs[..|obs| - 1] == obs[..1];
    assert NotifyFx(repo, slot, st, obs[..1]) == MediatorFx(repo, slot, st);
  }

  /**
   * A notification settles in `Settled`, every UI observer of the cascade is refreshed
   * once, innermost first, and each one reads the settled state.
   */
  lemma {:induction false} CascadeSettles(repo: Repository, slot: Slot, st: State)
    ensures SetFx(repo, slot, st) == Outcome(Settled(repo, slot, st), AllSee(RedrawOrder(slot), Settled(repo, slot, st)))
    decreases Level(slot)
  {
    NotifyTwo(repo, slot, st);
    var fin := Settled(repo, slot, st);
    match slot
    case DeckNamesSlot =>
      var st' := st.(lastSelectedDeck := SanitizedDeck(st.deckNames, st.lastSelectedDeck));
      CascadeSettles(repo, LastSelectedDeckSlot, st');
      assert AllSee(RedrawOrder(LastSelectedDeckSlot), fin) + [Redraw(DeckSelector, fin)] == AllSee(RedrawOrder(slot), fin);
    case LastSelectedDeckSlot =>
      CascadeSettles(repo, CurrentCardsSlot, Refetched(repo, st));
      assert AllSee(RedrawOrder(CurrentCardsSlot), fin) + [Redraw(FilterSelector, fin)] == AllSee(RedrawOrder(slot), fin);
    case DeckFilterCorrSlot =>
      CascadeSettles(repo, CurrentCardsSlot, Refetched(repo, st));
      assert AllSee(RedrawOrder(CurrentCardsSlot), fin) + [Redraw(FilterSelector, fin)] == AllSee(RedrawOrder(slot), fin);
    case CurrentCardsSlot =>
      CascadeSettles(repo, CurrentCardIdxSlot, st.(currentCardIdx := None));
      assert AllSee(RedrawOrder(CurrentCardIdxSlot), fin) + [Redraw(DeckDisplayer, fin)] == AllSee(RedrawOrder(slot), fin);
    case CurrentCardIdxSlot =>
      assert [] + [Redraw(CardEditor, fin)] == AllSee(RedrawOrder(slot), fin);
  }

  /** Assigning the card index changes nothing else and redraws only the card editor. */
  lemma CardIdxSettles(repo: Repository, st: State)
    ensures SetFx(repo, CurrentCardIdxSlot, st) == Outcome(st, [Redraw(CardEditor, st)])
  {
    NotifyTwo(repo, CurrentCardIdxSlot, st);
    assert MediatorFx(repo, CurrentCardIdxSlot, st) == Outcome(st, []);
  }

  /** What each handler guarantees once the cascade has settled. */
  lemma SettledSpec(repo: Repository, slot: Slot, st: State)
    ensures slot == CurrentCardIdxSlot ==> Settled(repo, slot, st) == st
    ensures slot != CurrentCardIdxSlot ==> Settled(repo, slot, st).currentCardIdx.None?
    ensures slot == CurrentCardsSlot ==> Settled(repo, slot, st) == st.(currentCardIdx := None)
    ensures Settled(repo, slot, st).deckNames == st.deckNames
    ensures slot == DeckNamesSlot ==>
      Settled(repo, slot, st).lastSelectedDeck == SanitizedDeck(st.deckNames, st.lastSelectedDeck)
    ensures slot in {LastSelectedDeckSlot, DeckFilterCorrSlot} ==>
      Settled(repo, slot, st).lastSelectedDeck == st.lastSelectedDeck
    ensures Level(slot) >= 3 ==>
      var fin := Settled(repo, slot, st);
      fin.lastSelectedDeck in fin.deckFilterCorr &&
      fin.currentCards == CardsFor(repo, fin.lastSelectedDeck, fin.deckFilterCorr[fin.lastSelectedDeck])
    ensures Level(slot) >= 3 ==>
      var fin := Settled(repo, slot, st);
      fin.deckFilterCorr == WithFilter(st.deckFilterCorr, fin.lastSelectedDeck, repo.allNotesLabel)
  {
  }

  // ---------------------------------------------------------------------------
  // The consistency the cascade restores
  // ---------------------------------------------------------------------------

  /** The selected deck is listed (None exactly when no deck exists) and the cards are its cards. */
  predicate Consistent(repo: Repository, st: State)
  {
    (st.lastSelectedDeck.None? <==> st.deckNames == []) &&
    (st.lastSelectedDeck.Some? ==> st.lastSelectedDeck.value in st.deckNames) &&
    st.lastSelectedDeck in st.deckFilterCorr &&
    st.currentCards == CardsFor(repo, st.lastSelectedDeck, st.deckFilterCorr[st.lastSelectedDeck])
  }

  /** A deck-names notification makes any state consistent. */
  lemma DeckNamesRestoresConsistency(repo: Repository, st: State)
    ensures Consistent(repo, Settled(repo, DeckNamesSlot, st))
  {
    SanitizedDeckSpec(st.deckNames, st.lastSelectedDeck);
  }

  /** Selecting a listed deck keeps the state consistent; selecting an unlisted one cannot. */
  lemma SelectDeckConsistency(repo: Repository, st: State, d: DeckName)
    requires st.deckNames != []
    ensures Consistent(repo, Settled(repo, LastSelectedDeckSlot, st.(lastSelectedDeck := Some(d)))) <==> d in st.deckNames
  {
  }

  /** Choosing a filter for the selected deck keeps a consistent state consistent. */
  lemma SelectFilterConsistency(repo: Repository, st: State, filterLabel: string)
    requires Consistent(repo, st)
    ensures Consistent(repo, Settled(repo, DeckFilterCorrSlot,
                                     st.(deckFilterCorr := st.deckFilterCorr[st.lastSelectedDeck := filterLabel])))
  {
  }

  /** The tab as constructed: the stored deck and filters, the repository's decks, no cards, no index. */
  function Initial(decks: seq<DeckName>, storedLast: Option<DeckName>, storedCorr: map<Option<DeckName>, string>): State
  {
    State(decks, storedLast, storedCorr, [], None)
  }

  /**
   * The constructor starts the cascade from the last-selected-deck slot, so a stored deck
   * that the repository no longer lists survives (decks `["A"]`, stored `"B"`).
   */
  lemma StaleDeckSurvivesConstruction(repo: Repository)
    ensures var fin := Settled(repo, LastSelectedDeckSlot, Initial(["A"], Some("B"), map[]));
      fin.lastSelectedDeck == Some("B") && "B" !in fin.deckNames && !Consistent(repo, fin)
  {
    var fin := Settled(repo, LastSelectedDeckSlot, Initial(["A"], Some("B"), map[]));
    assert fin.deckNames == ["A"];
    assert "B" != "A";
  }

  /** Starting from the deck-names slot instead, the constructed tab is always consistent. */
  lemma ConstructionFromDeckNamesConsistent(repo: Repository, decks: seq<DeckName>, storedLast: Option<DeckName>,
                                            storedCorr: map<Option<DeckName>, string>)
    ensures Consistent(repo, Settled(repo, DeckNamesSlot, Initial(decks, storedLast, storedCorr)))
  {
    DeckNamesRestoresConsistency(repo, Initial(decks, storedLast, storedCorr));
  }

  // ---------------------------------------------------------------------------
  // The tab
  // ---------------------------------------------------------------------------

  class DeckEditTab {
    var deckNames: seq<DeckName>
    var lastSelectedDeck: Option<DeckName>
    var deckFilterCorr: map<Option<DeckName>, string>
    var currentCards: seq<Card>
    var currentCardIdx: Option<int>
    /** The UI refreshes so far. */
    var redraws: seq<Redraw>
    const repo: Repository

    function Snapshot(): State
      reads this
    {
      State(deckNames, lastSelectedDeck, deckFilterCorr, currentCards, currentCardIdx)
    }

    /** The constructor as written: it triggers the cascade from the last selected deck. */
    constructor AsWritten(repo: Repository, decks: seq<DeckName>, storedLast: Option<DeckName>,
                          storedCorr: map<Option<DeckName>, string>)
      ensures this.repo == repo
      ensures Snapshot() == Settled(repo, LastSelectedDeckSlot, Initial(decks, storedLast, storedCorr))
      ensures redraws == AllSee(RedrawOrder(LastSelectedDeckSlot), Snapshot())
    {
      this.repo := repo;
      deckNames := decks;
      lastSelectedDeck := storedLast;
      deckFilterCorr := storedCorr;
      currentCards := [];
      currentCardIdx := None;
      redraws := [];
      new;
      Notify(LastSelectedDeckSlot);
      CascadeSettles(repo, LastSelectedDeckSlot, Initial(decks, storedLast, storedCorr));
    }

    /** The constructor with the cascade started from the deck names, which sanitizes the deck first. */
    constructor (repo: Repository, decks: seq<DeckName>, storedLast: Option<DeckName>,
                 storedCorr: map<Option<DeckName>, string>)
      ensures this.repo == repo
      ensures Snapshot() == Settled(repo, DeckNamesSlot, Initial(decks, storedLast, storedCorr))
      ensures Consistent(repo, Snapshot())
      ensures redraws == AllSee(RedrawOrder(DeckNamesSlot), Snapshot())
    {
      this.repo := repo;
      deckNames := decks;
      lastSelectedDeck := storedLast;
      deckFilterCorr := storedCorr;
      currentCards := [];
      currentCardIdx := None;
      redraws := [];
      new;
      Notify(DeckNamesSlot);
      CascadeSettles(repo, DeckNamesSlot, Initial(decks, storedLast, storedCorr));
      ConstructionFromDeckNamesConsistent(repo, decks, storedLast, storedCorr);
    }

    /**
     * `Observable.notify` of one slot: each attached observer's `update`, in order. A slot
     * has exactly two observers, so the loop over `Attached(slot)` is written out.
     */
    method Notify(slot: Slot)
      modifies this
      ensures Snapshot() == NotifyFx(repo, slot, old(Snapshot()), Attached(slot)).st
      ensures redraws == old(redraws) + NotifyFx(repo, slot, old(Snapshot()), Attached(slot)).log
      decreases Level(slot), 2, 0
    {
      NotifyTwo(repo, slot, old(Snapshot()));
      Update(slot);
      redraws := redraws + [Redraw(UiOf(slot), Snapshot())];
    }

    /** `_DataMediator.update`: dispatch on the notifying slot. */
    method Update(slot: Slot)
      modifies this
      ensures Snapshot() == MediatorFx(repo, slot, old(Snapshot())).st
      ensures redraws == old(redraws) + MediatorFx(repo, slot, old(Snapshot())).log
      decreases Level(slot), 1, 2
    {
      match slot
      case DeckNamesSlot => HandleDeckNamesChange();
      case LastSelectedDeckSlot => HandleLastDeckNameChange();
      case DeckFilterCorrSlot => HandleDeckFilterCorrChange();
      case CurrentCardsSlot => HandleCurrentCardsChange();
      case CurrentCardIdxSlot => HandleCurrentCardIdxChange();
    }

    method HandleDeckNamesChange()
      modifies this
      ensures Snapshot() == MediatorFx(repo, DeckNamesSlot, old(Snapshot())).st
      ensures redraws == old(redraws) + MediatorFx(repo, DeckNamesSlot, old(Snapshot())).log
      decreases Level(DeckNamesSlot), 1, 1
    {
      SanitizeCurrentDeckName();
    }

    method HandleLastDeckNameChange()
      modifies this
      ensures Snapshot() == MediatorFx(repo, LastSelectedDeckSlot, old(Snapshot())).st
      ensures redraws == old(redraws) + MediatorFx(repo, LastSelectedDeckSlot, old(Snapshot())).log
      decreases Level(LastSelectedDeckSlot), 1, 1
    {
      UpdateCards();
    }

    method HandleDeckFilterCorrChange()
      modifies this
      ensures Snapshot() == MediatorFx(repo, DeckFilterCorrSlot, old(Snapshot())).st
      ensures redraws == old(redraws) + MediatorFx(repo, DeckFilterCorrSlot, old(Snapshot())).log
      decreases Level(DeckFilterCorrSlot), 1, 1
    {
      UpdateCards();
    }

    method HandleCurrentCardsChange()
      modifies this
      ensures Snapshot() == MediatorFx(repo, CurrentCardsSlot, old(Snapshot())).st
      ensures redraws == old(redraws) + MediatorFx(repo, CurrentCardsSlot, old(Snapshot())).log
      decreases Level(CurrentCardsSlot), 1, 1
    {
      SetCurrentCardIdx(None);
    }

    /** The end of every cascade: nothing changes. */
    method HandleCurrentCardIdxChange()
      ensures MediatorFx(repo, CurrentCardIdxSlot, Snapshot()) == Outcome(Snapshot(), [])
    {
    }

    /** `_update_cards`: fetch the cards of the selected deck under its filter, then assign them. */
    method UpdateCards()
      modifies this
      ensures Snapshot() == SetFx(repo, CurrentCardsSlot, Refetched(repo, old(Snapshot()))).st
      ensures redraws == old(redraws) + SetFx(repo, CurrentCardsSlot, Refetched(repo, old(Snapshot()))).log
      decreases Level(LastSelectedDeckSlot), 1, 0
    {
      var deck := lastSelectedDeck;
      var cards := GetCards(deck);
      SetCurrentCards(cards);
    }

    /** `_get_cards`: read the deck's filter label (storing the default for an unseen deck). */
    method GetCards(deck: Option<DeckName>) returns (cards: seq<Card>)
      modifies this
      ensures deckFilterCorr == WithFilter(old(deckFilterCorr), deck, repo.allNotesLabel)
      ensures cards == CardsFor(repo, deck, deckFilterCorr[deck])
      ensures deckNames == old(deckNames) && lastSelectedDeck == old(lastSelectedDeck)
      ensures currentCards == old(currentCards) && currentCardIdx == old(currentCardIdx) && redraws == old(redraws)
    {
      if deck !in deckFilterCorr {
        deckFilterCorr := deckFilterCorr[deck := repo.allNotesLabel];
      }
      var filterName := deckFilterCorr[deck];
      var omFilterCode := repo.filterCode(filterName);
      cards := repo.getCards(deck, omFilterCode);
    }

    /** `_sanitize_current_deck_name`: always reassigns the deck, so the cascade always runs. */
    method SanitizeCurrentDeckName()
      modifies this
      ensures Snapshot() == MediatorFx(repo, DeckNamesSlot, old(Snapshot())).st
      ensures redraws == old(redraws) + MediatorFx(repo, DeckNamesSlot, old(Snapshot())).log
      decreases Level(DeckNamesSlot), 1, 0
    {
      var deckList := deckNames;
      if lastSelectedDeck.None? || lastSelectedDeck.value !in deckList {
        if |deckList| > 0 {
          SetLastSelectedDeck(Some(deckList[0]));
        } else {
          SetLastSelectedDeck(None);
        }
      } else {
        SetLastSelectedDeck(lastSelectedDeck);
      }
    }

    method SetDeckNames(v: seq<DeckName>)
      modifies this
      ensures Snapshot() == SetFx(repo, DeckNamesSlot, old(Snapshot()).(deckNames := v)).st
      ensures redraws == old(redraws) + SetFx(repo, DeckNamesSlot, old(Snapshot()).(deckNames := v)).log
      decreases Level(DeckNamesSlot), 3, 0
    {
      deckNames := v;
      Notify(DeckNamesSlot);
    }

    method SetLastSelectedDeck(v: Option<DeckName>)
      modifies this
      ensures Snapshot() == SetFx(repo, LastSelectedDeckSlot, old(Snapshot()).(lastSelectedDeck := v)).st
      ensures redraws == old(redraws) + SetFx(repo, LastSelectedDeckSlot, old(Snapshot()).(lastSelectedDeck := v)).log
      decreases Level(LastSelectedDeckSlot), 3, 0
    {
      lastSelectedDeck := v;
      Notify(LastSelectedDeckSlot);
    }

    method SetDeckFilterCorr(v: map<Option<DeckName>, string>)
      modifies this
      ensures Snapshot() == SetFx(repo, DeckFilterCorrSlot, old(Snapshot()).(deckFilterCorr := v)).st
      ensures redraws == old(redraws) + SetFx(repo, DeckFilterCorrSlot, old(Snapshot()).(deckFilterCorr := v)).log
      decreases Level(DeckFilterCorrSlot), 3, 0
    {
      deckFilterCorr := v;
      Notify(DeckFilterCorrSlot);
    }

    method SetCurrentCards(v: seq<Card>)
      modifies this
      ensures Snapshot() == SetFx(repo, CurrentCardsSlot, old(Snapshot()).(currentCards := v)).st
      ensures redraws == old(redraws) + SetFx(repo, CurrentCardsSlot, old(Snapshot()).(currentCards := v)).log
      decreases Level(CurrentCardsSlot), 3, 0
    {
      currentCards := v;
      Notify(CurrentCardsSlot);
    }

    method SetCurrentCardIdx(v: Option<int>)
      modifies this
      ensures Snapshot() == SetFx(repo, CurrentCardIdxSlot, old(Snapshot()).(currentCardIdx := v)).st
      ensures redraws == old(redraws) + SetFx(repo, CurrentCardIdxSlot, old(Snapshot()).(currentCardIdx := v)).log
      decreases Level(CurrentCardIdxSlot), 3, 0
    {
      currentCardIdx := v;
      Notify(CurrentCardIdxSlot);
    }

    // -------------------------------------------------------------------------
    // User actions
    // -------------------------------------------------------------------------

    /** `_actions_on_sync_button_click`: replace the deck names with the repository's list. */
    method Resync(decks: seq<DeckName>)
      modifies this
      ensures Snapshot() == Settled(repo, DeckNamesSlot, old(Snapshot()).(deckNames := decks))
      ensures Consistent(repo, Snapshot())
      ensures redraws == old(redraws) + AllSee(RedrawOrder(DeckNamesSlot), Snapshot())
    {
      SetDeckNames(decks);
      CascadeSettles(repo, DeckNamesSlot, old(Snapshot()).(deckNames := decks));
      DeckNamesRestoresConsistency(repo, old(Snapshot()).(deckNames := decks));
    }

    /** The deck selector's binding: assign the selected deck. */
    method SelectDeck(d: DeckName)
      modifies this
      ensures Snapshot() == Settled(repo, LastSelectedDeckSlot, old(Snapshot()).(lastSelectedDeck := Some(d)))
      ensures redraws == old(redraws) + AllSee(RedrawOrder(LastSelectedDeckSlot), Snapshot())
    {
      SetLastSelectedDeck(Some(d));
      CascadeSettles(repo, LastSelectedDeckSlot, old(Snapshot()).(lastSelectedDeck := Some(d)));
    }

    /** The filter selector's binding: assign the selected deck's filter label. */
    method SelectFilter(filterLabel: string)
      modifies this
      ensures Snapshot() == Settled(repo, DeckFilterCorrSlot,
                                    old(Snapshot()).(deckFilterCorr := old(deckFilterCorr)[old(lastSelectedDeck) := filterLabel]))
      ensures redraws == old(redraws) + AllSee(RedrawOrder(DeckFilterCorrSlot), Snapshot())
    {
      SetDeckFilterCorr(deckFilterCorr[lastSelectedDeck := filterLabel]);
      CascadeSettles(repo, DeckFilterCorrSlot,
                     old(Snapshot()).(deckFilterCorr := old(deckFilterCorr)[old(lastSelectedDeck) := filterLabel]));
    }

    /** `_actions_on_agrid_cell_click`: the clicked row becomes the current card index. */
    method CellClick(selectedCardIndex: int)
      modifies this
      ensures Snapshot() == old(Snapshot()).(currentCardIdx := Some(selectedCardIndex))
      ensures redraws == old(redraws) + [Redraw(CardEditor, Snapshot())]
    {
      SetCurrentCardIdx(Some(selectedCardIndex));
      CardIdxSettles(repo, old(Snapshot()).(currentCardIdx := Some(selectedCardIndex)));
    }

    /**
     * `_CardEditorWrapper._get_card`: the card at the index (Python indexing). An index
     * past either end raises IndexError, whose handler itself fails reading the missing
     * `om_username` attribute, so the call raises AttributeError.
     */
    method GetCard() returns (r: Result<Card>)
      requires currentCardIdx.Some?
      ensures r.Ok? <==> -|currentCards| <= currentCardIdx.value < |currentCards|
      ensures r.Ok? ==> r == PyIndex(currentCards, currentCardIdx.value)
      ensures r.Err? ==> r.error == AttributeError
    {
      var card := PyIndex(currentCards, currentCardIdx.value);
      if card.Err? {
        return Err(AttributeError);
      }
      r := card;
    }

    /** The card editor's display: nothing without an index, else the card or the error. */
    method DisplayCardEditor() returns (view: CardView)
      ensures currentCardIdx.None? <==> view == NoEditor
      ensures currentCardIdx.Some? && 0 <= currentCardIdx.value < |currentCards| ==>
        view == Editor(currentCards[currentCardIdx.value])
      ensures view.Editor? ==> currentCardIdx.Some? && PyIndex(currentCards, currentCardIdx.value) == Ok(view.card)
      ensures view.Raised? <==> currentCardIdx.Some? && !(-|currentCards| <= currentCardIdx.value < |currentCards|)
      ensures view.Raised? ==> view.error == AttributeError
    {
      if currentCardIdx.None? {
        return NoEditor;
      }
      var card := GetCard();
      if card.Err? {
        return Raised(card.error);
      }
      view := Editor(card.value);
    }
  }
}
