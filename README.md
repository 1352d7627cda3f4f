# Omakase: user caches, observers, deck tabs and prompt parameters in Dafny

This project models the core of Omakase, a web front end that helps a user write
mnemonics for Anki notes. The model covers:

- **Observer plumbing.** `Observable.attach`/`notify` and the list, dict and primitive
  observables. A `notify` call is recorded as the sequence of `update` deliveries it makes,
  each with the value the observer reads.
- **Per-user storage.** The nested user caches (`app.storage.general["user_caches"]`) and
  the web user's cookie storage. Nested Python dicts become the `OmUser.Value` datatype.
- **Cached user subjects.** The subjects that live in the user cache: `LastSelectedDeck`,
  `DeckFilterCorr` and the note-field mapper `MnemonicNoteFieldMapData` with its sanitizer.
- **Prompt parameters.** The filled-out checks and filtering on prompt-parameter
  dataclasses, and the string-field discovery.
- **Prompt schema.** The prompt schema matryoshka: fields, rows, sections and prompt data.
  It includes the rebinding of `notify` and the Markdown help text. The concrete
  `SoundTargetComponents` schema is modelled too.
- **Deck tabs.** The observer-based deck tab: five observable slots, the mediator that
  keeps them consistent, and the UI observers that only redraw. The older deck tab and
  the note tab are modelled too.

Each stateful Python object is a Dafny `class` whose methods are proved against pure
specification functions. The pure logic is functions and lemmas. Python exceptions are
`Err(PyError)` results.

Some inputs come from code outside this model:

- the repository's deck list and cards;
- the deck filter table;
- the type information of the prompt-parameter classes.

These enter as parameters or as function-typed fields of `Decks.Repository`.

## Model

| member | source | states |
|---|---|---|
| ObserverLogic.DeliveriesOf | omakase/observer_logic.py:65-73 | one delivery per observer, in attachment order, each carrying the same value |
| ObserverLogic.Observable.Attach | omakase/observer_logic.py:57-63 | the observer list is created on first use and the observer appended, duplicates kept |
| ObserverLogic.Observable.Notify | omakase/observer_logic.py:65-73 | every attached observer is updated once, in order, each reading the current value; the list is created if missing |
| ObserverLogic.ObservableList.constructor | omakase/observer_logic.py:89-92 | `None` becomes the empty list and no observer is attached |
| ObserverLogic.ObservableList.Set | omakase/observer_logic.py:97-100 | the new list is stored before any observer runs, so every observer reads it |
| ObserverLogic.ObservableDict.constructor | omakase/observer_logic.py:116-119 | `None` becomes the empty dict |
| ObserverLogic.ObservableDict.Set | omakase/observer_logic.py:124-127 | the new dict is stored, then every observer is notified and reads it |
| ObserverLogic.ObservablePrimitive.constructor | omakase/observer_logic.py:137-139 | the value is stored and nobody is notified |
| ObserverLogic.ObservablePrimitive.Set | omakase/observer_logic.py:144-147 | the new value is stored, then every observer is notified and reads it |
| OmUser.EnsurePath | omakase/backend/mnemonics/base.py:464-470 | the assumed `point_to_om_user_subcache`: it can fail only with TypeError; on success the top level gains only the first key of the path and keeps every other entry |
| OmUser.EnsurePathReaches | omakase/backend/mnemonics/base.py:464-470 | under the assumed lazy creation of `point_to_om_user_subcache`, the path leads to the dict that was there, or to a fresh empty one |
| OmUser.EnsurePathKeepsExisting | omakase/backend/mnemonics/base.py:464-470 | under that assumption, an existing path is left exactly as it is |
| OmUser.EnsurePathFailsOnlyOnShape | omakase/backend/mnemonics/base.py:464-470 | the assumed failure of `point_to_om_user_subcache`: creating the path fails exactly when some existing level on it is not a dict |
| OmUser.EnsurePathNoShapeErrorWhenMissing | omakase/backend/mnemonics/base.py:464-470 | under that assumption, every path can be created inside a fresh empty dict |
| OmUser.UpdatePathThenLookup | omakase/backend/mnemonics/base.py:464-470 | a write through the nested dict the call returns is seen by a later lookup of the same path |
| OmUser.OmUserCaches.PointToOmUserCaches | omakase/backend/om_user.py:33-36 | the `user_caches` dict is created if missing and returned; nothing else changes |
| OmUser.OmUserCaches.PointToOmUserCache | omakase/backend/om_user.py:39-52 | the user's dict is created empty if missing and returned; other users' dicts are unchanged |
| OmUser.OmUserCaches.SetUserCache | omakase/backend/om_user.py:39-52 | replacing the user's dict through the returned reference changes that user's entry and no other |
| OmUser.OmUserCaches.SetEntry | omakase/backend/om_user.py:107-109 | a write through the returned reference changes one key of one user's dict |
| OmUser.OmUserCaches.InitMissingOmUserCache | omakase/backend/om_user.py:59-63 | after the call the user's dict is `InitMissing` of its old value |
| OmUser.InitMissing | omakase/backend/om_user.py:59-63 | the keys afterwards are the old keys plus `last_selected_deck`; every existing entry is kept; a missing `last_selected_deck` is None |
| OmUser.InitMissingSpec | omakase/backend/om_user.py:59-63 | `last_selected_deck` is present afterwards, `None` when it was missing; other keys are kept; a second call changes nothing |
| OmUser.WithDefault | omakase/backend/om_user.py:111-113 | the keys afterwards are the old keys plus the subject key; every existing entry is kept; only a missing subject key gets the default |
| OmUser.WithDefaultSticky | omakase/backend/om_user.py:161-165 | a second "set if missing" of the same key changes nothing, whatever its default, so the first label stored for a deck is the one later reads return |
| OmUser.LastSelectedDeck.constructor | omakase/backend/om_user.py:80-86 | the subject points at the user's dict, and a missing `last_selected_deck` key gets the default |
| OmUser.LastSelectedDeck.SetState | omakase/backend/om_user.py:102-109 | the state reads back what was set, and the write lands in the shared user cache |
| OmUser.DeckFilterCorr.constructor | omakase/backend/om_user.py:140-154 | the filter map key is created as an empty dict if missing; an existing map is adopted |
| OmUser.DeckFilterCorr.SetFilterForDeck | omakase/backend/om_user.py:156-159 | the deck's label is replaced and the change is visible in the shared cache |
| OmUser.DeckFilterCorr.GetFilterForDeck | omakase/backend/om_user.py:161-165 | an unseen deck gets the "all notes" label, stored in the cache; a known deck's label is returned unchanged |
| WebUser.WithDefaults | omakase/frontend/web_user.py:26-34 | the keys afterwards are the old keys plus the three default keys; every existing entry is kept |
| WebUser.WithDefaultsSpec | omakase/frontend/web_user.py:26-34 | the three keys exist afterwards with False, None and None when they were missing; present keys keep their values; the call is idempotent |
| WebUser.UserStorage.InitUserStorage | omakase/frontend/user.py:13-20 | `init_user_storage` leaves the storage equal to `WithDefaults` of its old value |
| EditNotes.SanityLastUsedDeck | omakase/frontend/tabs/edit_notes.py:30-38 | the repair fails exactly when the deck list is empty, and then with IndexError |
| EditNotes.SanityLastUsedDeckSpec | omakase/frontend/tabs/edit_notes.py:30-38 | for a deck key and its default: a missing, default or unlisted deck is replaced by the first deck; a listed deck stays; only that key is written; the stored deck ends up listed |
| EditNotes.EditNotesContent.constructor | omakase/frontend/tabs/edit_notes.py:19-22 | the user name is read once from storage, None when absent |
| EditNotes.EditNotesContent.SanityLastUsedDeckInStorage | omakase/frontend/tabs/edit_notes.py:30-38 | the call fails exactly when the deck list is empty, with IndexError, and then leaves the storage unchanged; otherwise the storage becomes the repaired storage |
| EditNotes.EditNotesContent.DisplayIfLogged | omakase/frontend/tabs/edit_notes.py:40-58 | not logged in or no deck: nothing is written; otherwise the stored deck ends up listed and the selector offers the decks |
| PromptParams.FieldIsFilledOut | omakase/backend/mnemonics/base.py:331-341 | a string always gets an answer; a value that is neither a string nor a dict raises; every error is the prompt field type error |
| PromptParams.NestedDictNonEmptyStr | omakase/backend/mnemonics/base.py:343-355 | as written: an empty dict is not filled; a non-empty dict of dicts is filled whenever no nested check raises; every error is the prompt field type error |
| PromptParams.NestedDictNonEmptyStrIntended | omakase/backend/mnemonics/base.py:342-355 | as the docstring describes it: an empty dict is not filled; every error, nested ones included, is the prompt field type error |
| PromptParams.NestedCheckAgreement | omakase/backend/mnemonics/base.py:343-355 | the nested check as written and as intended fail on the same inputs; they agree on dicts of strings; an intended `True` is also `True` as written |
| PromptParams.DiscardedRecursionExample | omakase/backend/mnemonics/base.py:350-352 | `{"a": {"x": ""}}` is filled out as written, though no string in it is non-empty |
| PromptParams.NonFilledOutFields | omakase/backend/mnemonics/base.py:283-295 | at most one name per field is listed; every error is the prompt field type error |
| PromptParams.NonFilledOutFieldsOk | omakase/backend/mnemonics/base.py:283-295 | the listing raises exactly when the check of some field raises |
| PromptParams.NonFilledOutFieldsMembers | omakase/backend/mnemonics/base.py:283-295 | a field is listed exactly when its check returns False |
| PromptParams.NonFilledOutFieldsErrPrefix | omakase/backend/mnemonics/base.py:289-294 | the first field whose check raises decides the error |
| PromptParams.NonFilledOutFieldsLoop | omakase/backend/mnemonics/base.py:283-295 | the loop returns the listing defined field by field, including its error |
| PromptParams.NonFilledOutFieldsTestCases | tests/test_mnemonics.py:14-29 | the five value expectations of `test_non_filled_out_fields` hold |
| PromptParams.NonFilledOutFieldsTypeErrorCases | tests/test_mnemonics.py:30-37 | the two expectations of `test_non_filled_out_fields` that a non-string, non-dict field raises the prompt field type error |
| PromptParams.PruneSubfieldsOk | omakase/backend/mnemonics/base.py:310-318 | pruning a dict's subfields raises exactly when some subfield's check raises |
| PromptParams.PruneStrSubfieldsOk | omakase/backend/mnemonics/base.py:310-318 | pruning a dict of strings never raises |
| PromptParams.PruneDictSubfieldsOk | omakase/backend/mnemonics/base.py:310-318 | pruning a dict of dicts succeeds whenever every nested check succeeds |
| PromptParams.PruneSubfieldsMembers | omakase/backend/mnemonics/base.py:310-318 | the pruned dict keeps exactly the subfields whose check returns True, with their values |
| PromptParams.FilledOutFieldsSubfields | omakase/backend/mnemonics/base.py:297-319 | the result holds at most one entry per field; every error is the prompt field type error |
| PromptParams.FilledOutFieldsSubfieldsOk | omakase/backend/mnemonics/base.py:297-319 | the filled-out dict is produced exactly when the non-filled listing is |
| PromptParams.KeepFilledOk | omakase/backend/mnemonics/base.py:302-319 | keeping and pruning the filled fields succeeds when all field checks do |
| PromptParams.FilledOutFieldsSubfieldsKeys | omakase/backend/mnemonics/base.py:297-319 | with distinct field names, the result holds exactly the fields whose check returns True |
| PromptParams.FilledOutFieldsSubfieldsValues | omakase/backend/mnemonics/base.py:297-319 | every entry of the result is a field whose check returns True, with its value pruned of unfilled subfields; with distinct field names, every such field appears so |
| PromptParams.KeepFilledValues | omakase/backend/mnemonics/base.py:302-318 | every kept entry comes from a field outside the non-filled listing and carries that field's pruned value |
| PromptParams.KeepFilledComplete | omakase/backend/mnemonics/base.py:302-318 | every field outside the non-filled listing is pruned without error and kept with its pruned value |
| PromptParams.KeepFilledKeys | omakase/backend/mnemonics/base.py:302-308 | the kept fields are exactly those not in the non-filled listing |
| PromptParams.KeepFilledErrAt | omakase/backend/mnemonics/base.py:310-318 | the first field whose subfield pruning raises decides the error |
| PromptParams.PruneSubfieldsLoop | omakase/backend/mnemonics/base.py:310-318 | the inner loop over one dict's subfields returns the pruned dict as specified, or the first subfield's error |
| PromptParams.GetFilledOutFieldsSubfields | omakase/backend/mnemonics/base.py:297-319 | the nested loops return the filled-out dict as specified, or its error |
| PromptParams.StrFieldNames | omakase/backend/mnemonics/base.py:366-377 | at most one name per declared field |
| PromptParams.StrFieldNamesMembers | omakase/backend/mnemonics/base.py:366-377 | a name is returned exactly when its field is `str` or `Annotated[str, ...]` |
| PromptParams.StrFieldNamesAppend | omakase/backend/mnemonics/base.py:371-376 | the names follow field declaration order |
| PromptParams.TcRevisionStrFields | omakase/backend/mnemonics/base.py:529-535 | `TCRevisionParams` has the one string field `mnemonic` |
| NoteFieldMap.Sanitized | omakase/backend/mnemonics/base.py:472-489 | the docstring's sanitizer keeps only old keys, each a string parameter whose value is None or a note field |
| NoteFieldMap.SanitizedSpec | omakase/backend/mnemonics/base.py:472-489 | only string prompt parameters remain; each value is None or an existing note field; valid values are kept; sanitizing twice changes nothing |
| NoteFieldMap.SanitizedKeepsClean | omakase/backend/mnemonics/base.py:472-489 | clean associations are left exactly as they are |
| NoteFieldMap.SanitizePromptNoteAssocs | omakase/backend/mnemonics/base.py:472-489 | the two passes compute the sanitized associations |
| NoteFieldMap.FirstPassAsWritten | omakase/backend/mnemonics/base.py:480-483 | the first pass raises RuntimeError exactly when some key, in iteration order, is not a string parameter; when it does not raise the dict is unchanged |
| NoteFieldMap.FirstPassErrExtends | omakase/backend/mnemonics/base.py:480-483 | a stale key in the part of the iteration done so far makes the whole pass raise |
| NoteFieldMap.SanitizeAsWritten | omakase/backend/mnemonics/base.py:472-489 | the sanitizer as written raises RuntimeError exactly when its first pass does, that is when a stale key is present; otherwise the result is the sanitized map |
| NoteFieldMap.StaleKeyRaises | omakase/backend/mnemonics/base.py:480-483 | the first pass over `{"old_name": None}` against string parameters `["mnemonic"]` raises RuntimeError |
| NoteFieldMap.RootKeys | omakase/backend/mnemonics/base.py:427-431 | the associations live under the mnemonic-assocs key, the note type and the parameter class name |
| NoteFieldMap.MnemonicNoteFieldMapData.constructor | omakase/backend/mnemonics/base.py:397-436 | the association dict is created if missing and replaced in place, in the shared cache, by its form under the docstring's intended sanitizer (the sanitizer as written raises at the first stale key); the object's attributes are the five it assigns and its class's methods |
| NoteFieldMap.MapperAssocsSanitized | omakase/backend/mnemonics/base.py:464-489 | after construction every stored association names a string parameter and a note field or None |
| NoteFieldMap.MnemonicNoteFieldMapData.GenoutIsAssociatedAsWritten | omakase/backend/mnemonics/base.py:438-440 | reading `genout_note_assocs` raises AttributeError exactly when the object lacks that attribute, which every constructed mapper does |
| NoteFieldMap.MnemonicNoteFieldMapData.GenoutIsAssociatedToNoteField | omakase/backend/mnemonics/base.py:438-440 | true exactly when the stored generation-output field is one of the note's fields |
| PromptSchema.NewRow | omakase/backend/mnemonics/base.py:86-91 | a row holds one empty field per field class, in order, each notifying the row |
| PromptSchema.NewSection | omakase/backend/mnemonics/base.py:123-130 | a section holds `n_repeat` rows (none when not positive), each notifying the section, while each row's fields still notify that row |
| PromptSchema.NewFieldsData | omakase/backend/mnemonics/base.py:189-194 | one section per section class, each notifying the prompt data |
| PromptSchema.NotifyStopsBelowRoot | omakase/backend/mnemonics/base.py:33-39 | as built, no field and no row notifies the prompt data |
| PromptSchema.ShareRow | omakase/backend/mnemonics/base.py:33-39 | a row and all its fields notify the target afterwards, values unchanged |
| PromptSchema.ShareSection | omakase/backend/mnemonics/base.py:33-39 | a section, its rows and their fields notify the target afterwards |
| PromptSchema.NewFieldsDataShared | omakase/backend/mnemonics/base.py:33-39 | the prompt data's `notify` is shared by every inner object |
| PromptSchema.SharedNotifyReachesRoot | omakase/backend/mnemonics/base.py:33-39 | with that sharing every field and row notifies the prompt data |
| PromptSchema.SectionExplanation | omakase/backend/mnemonics/base.py:165-180 | the section help raises IndexError exactly when the section has no row; otherwise it starts with the section header |
| PromptSchema.FullUiExplanation | omakase/backend/mnemonics/base.py:165-180 | the section help is the `####` header, the section header, then one bullet per field of the first row; no row raises IndexError |
| PromptSchema.BuiltSectionExplanation | omakase/backend/mnemonics/base.py:165-180 | for a built section the help depends only on its classes and exists exactly when it has a row |
| PromptSchema.MnemExplanation | omakase/backend/mnemonics/base.py:217-228 | every error of the prompt help is IndexError; otherwise it starts with the prompt header |
| PromptSchema.FullMnemExplanation | omakase/backend/mnemonics/base.py:217-228 | the prompt help is the `###` header, its header, then each section's help after a line break |
| PromptSchema.MnemExplanationShape | omakase/backend/mnemonics/base.py:217-228 | the prompt help fails exactly when some section has no row, and otherwise starts with the header |
| PromptSchema.SectionsExplanationErrIff | omakase/backend/mnemonics/base.py:226-227 | the section loop raises exactly when some section has no row |
| TcSound.SoundTargetComponentsLayout | omakase/backend/mnemonics/tc_sound.py:225-237 | three sections in order: target concept, target meaning mnemonic, component; the component section repeats its 3-field row 4 times |
| TcSound.BuiltSoundTargetComponents | omakase/backend/mnemonics/tc_sound.py:147-237 | the built schema has 1, 1 and 4 rows with 1, 1 and 3 empty fields |
| TcSound.SoundTargetComponentsExplanation | omakase/backend/mnemonics/tc_sound.py:225-243 | the help text exists and starts with the `###` header and the placeholder header |
| TcSound.ComponentSoundsExplanation | omakase/backend/mnemonics/tc_sound.py:147-171 | the component section's help lists sound, component concept and details, in that order |
| Decks.PyIndex | omakase/frontend/tabs/edit_decks.py:257-261 | a card index succeeds exactly in `-len <= i < len`; otherwise IndexError |
| Decks.PyIndexNegativeAlias | omakase/frontend/tabs/edit_decks.py:258 | a negative index reads the element counted from the end |
| DecksLevel.Attached | omakase/frontend/tabs/edit_decks/deckslevel.py:245-254 | each slot has the mediator first and one UI observer second |
| DecksLevel.NotifyTwo | omakase/frontend/tabs/edit_decks/deckslevel.py:245-254 | a slot's notification is the mediator's whole cascade, then one redraw of the slot's UI observer reading the state the mediator left |
| DecksLevel.CardIdxSettles | omakase/frontend/tabs/edit_decks/deckslevel.py:143-145 | assigning the card index changes nothing else and redraws only the card editor |
| DecksLevel.SanitizedDeck | omakase/frontend/tabs/edit_decks/deckslevel.py:157-173 | None exactly when there is no deck; otherwise a listed deck |
| DecksLevel.SanitizedDeckSpec | omakase/frontend/tabs/edit_decks/deckslevel.py:157-173 | a listed deck is kept; otherwise the first deck, or None when no deck exists |
| DecksLevel.MediatorFx | omakase/frontend/tabs/edit_decks/deckslevel.py:108-155 | no handler of the mediator changes the deck list |
| DecksLevel.CascadeSettles | omakase/frontend/tabs/edit_decks/deckslevel.py:108-155 | a notification settles in one final state; every UI observer of the cascade redraws once, innermost first, reading that final state |
| DecksLevel.SettledSpec | omakase/frontend/tabs/edit_decks/deckslevel.py:126-187 | the card index is reset below the index slot; the deck is sanitized on a deck-list change; the cards match the deck and its stored filter |
| DecksLevel.DeckNamesRestoresConsistency | omakase/frontend/tabs/edit_decks/deckslevel.py:539-541 | after a deck-list change the selected deck is listed (None only without decks) and the cards are its cards |
| DecksLevel.SelectDeckConsistency | omakase/frontend/tabs/edit_decks/deckslevel.py:406-422 | selecting a deck leaves the tab consistent exactly when the deck is listed |
| DecksLevel.SelectFilterConsistency | omakase/frontend/tabs/edit_decks/deckslevel.py:506-518 | choosing a filter keeps a consistent tab consistent |
| DecksLevel.StaleDeckSurvivesConstruction | omakase/frontend/tabs/edit_decks/deckslevel.py:255-256 | decks `["A"]` with stored deck `"B"`: after construction `"B"` is still selected |
| DecksLevel.ConstructionFromDeckNamesConsistent | omakase/frontend/tabs/edit_decks/deckslevel.py:255-256 | starting the cascade from the deck list always gives a consistent tab |
| DecksLevel.DeckEditTab.AsWritten | omakase/frontend/tabs/edit_decks/deckslevel.py:196-256 | construction ends in the state settled from the last-selected-deck slot, with its redraws |
| DecksLevel.DeckEditTab.constructor | omakase/frontend/tabs/edit_decks/deckslevel.py:196-256 | construction notifying the deck list instead ends consistent |
| DecksLevel.DeckEditTab.Notify | omakase/observer_logic.py:65-73 | a slot's notification runs the mediator, then the UI observer, as the cascade specifies |
| DecksLevel.DeckEditTab.Update | omakase/frontend/tabs/edit_decks/deckslevel.py:108-124 | the mediator dispatches on the notifying slot |
| DecksLevel.DeckEditTab.HandleDeckNamesChange | omakase/frontend/tabs/edit_decks/deckslevel.py:126-129 | a deck-list change sanitizes the selected deck |
| DecksLevel.DeckEditTab.HandleLastDeckNameChange | omakase/frontend/tabs/edit_decks/deckslevel.py:131-133 | a deck change refetches the cards |
| DecksLevel.DeckEditTab.HandleDeckFilterCorrChange | omakase/frontend/tabs/edit_decks/deckslevel.py:135-137 | a filter change refetches the cards |
| DecksLevel.DeckEditTab.HandleCurrentCardsChange | omakase/frontend/tabs/edit_decks/deckslevel.py:139-141 | new cards reset the card index to None |
| DecksLevel.DeckEditTab.HandleCurrentCardIdxChange | omakase/frontend/tabs/edit_decks/deckslevel.py:143-145 | the cascade ends at the card index |
| DecksLevel.DeckEditTab.UpdateCards | omakase/frontend/tabs/edit_decks/deckslevel.py:147-155 | the selected deck's cards under its filter are assigned, with the cascade that follows |
| DecksLevel.DeckEditTab.GetCards | omakase/frontend/tabs/edit_decks/deckslevel.py:176-187 | the deck's filter label, defaulting to "all notes" and stored, selects the cards; nothing else changes |
| DecksLevel.DeckEditTab.SanitizeCurrentDeckName | omakase/frontend/tabs/edit_decks/deckslevel.py:157-173 | the deck is always reassigned, so the cascade always runs |
| DecksLevel.DeckEditTab.SetDeckNames | omakase/observer_logic.py:97-100 | assigning the deck list stores it, then runs its cascade |
| DecksLevel.DeckEditTab.SetLastSelectedDeck | omakase/frontend/tabs/edit_decks/deckslevel.py:166-173 | assigning the deck stores it, then runs its cascade |
| DecksLevel.DeckEditTab.SetDeckFilterCorr | omakase/frontend/tabs/edit_decks/deckslevel.py:509-518 | assigning the filter map stores it, then runs its cascade |
| DecksLevel.DeckEditTab.SetCurrentCards | omakase/frontend/tabs/edit_decks/data.py:14-15 | assigning the cards stores them, then runs their cascade |
| DecksLevel.DeckEditTab.SetCurrentCardIdx | omakase/frontend/tabs/edit_decks/data.py:18-19 | assigning the index stores it, then redraws the editor |
| DecksLevel.DeckEditTab.Resync | omakase/frontend/tabs/edit_decks/deckslevel.py:539-541 | a resync ends consistent and redraws all four UI observers |
| DecksLevel.DeckEditTab.SelectDeck | omakase/frontend/tabs/edit_decks/deckslevel.py:406-422 | selecting a deck refetches its cards and resets the index |
| DecksLevel.DeckEditTab.SelectFilter | omakase/frontend/tabs/edit_decks/deckslevel.py:506-518 | choosing a filter stores it for the selected deck and refetches the cards |
| DecksLevel.DeckEditTab.CellClick | omakase/frontend/tabs/edit_decks/deckslevel.py:472-474 | a click sets the card index and redraws only the card editor |
| DecksLevel.DeckEditTab.GetCard | omakase/frontend/tabs/edit_decks/deckslevel.py:757-768 | a valid Python index returns the card; any other index escapes as AttributeError, since the handler reads a missing attribute |
| DecksLevel.DeckEditTab.DisplayCardEditor | omakase/frontend/tabs/edit_decks/deckslevel.py:744-752 | no index shows nothing; an index in Python's range shows the card Python reads there, counted from the end when negative; any other index raises AttributeError |
| EditDecks.EditDeckContent.constructor | omakase/frontend/tabs/edit_decks.py:41-51 | the user's cache is created if missing and the tab starts with no cards |
| EditDecks.EditDeckContent.GetCurrentDeckName | omakase/frontend/tabs/edit_decks.py:97-115 | no deck returns None and writes nothing; otherwise the stored deck is repaired to a listed one, with the om-user cache's own key and default, and returned |
| EditDecks.EditDeckContent.GetCurrentFilterUiName | omakase/frontend/tabs/edit_decks.py:117-124 | a missing filter map raises KeyError and a non-dict one TypeError; otherwise an unseen deck gets the "all notes" label, stored, and the deck's label is returned |
| EditDecks.EditDeckContent.AssignCardsFromDeck | omakase/frontend/tabs/edit_decks.py:237-244 | the cards become the repository's cards for the deck, None included, under the label's filter code |
| EditDecks.EditDeckContent.DisplayCardEditorIfPossible | omakase/frontend/tabs/edit_decks.py:246-266 | no index shows nothing; an index in Python's range shows the card Python reads there, counted from the end when negative; any other index shows the error and nothing is raised |

## Left out

- **Not modelled:**
  - UI rendering (NiceGUI widgets, `ui.refreshable`, dialogs, aggrid rows);
  - logging;
  - `display_exception`, which is modelled only as the `ErrorDisplayed` outcome.
- **I/O and other code:**
  - Storage persistence is not modelled. NiceGUI writes `app.storage` to disk on every change; here storage is an in-memory map.
  - The deck repository (`ManipulateDecks`/`DecksManipulator`, `get_cards_from_deck`, `list_decks`) and the filter table are parameters. Their implementations are not part of this model.
- `omakase/frontend/tabs/edit_decks/cardlevel.py`, `omakase/observers.py`, `ObservableDataclass` and `FieldRowAssocs` are not part of this model. The same goes for `PromptRow.update_from_store`/`store_assoc` and the `point_to_*_dp` data points, which are built on `CachedUserDataPoint` and `point_to_om_user_subcache`; the source defines neither (see "Import names").
- Mutation of an observable's contents (NiceGUI's observable list and dict notify on in-place changes) is not modelled. Only whole-value assignment is.
- **Prompt schema on values.** Prompt schema objects are values, and "whose `notify`" is recorded as a tree position. Object identity and the observer lists of inner objects are not modelled.
- **Field types.** The field types of the prompt-parameter dataclasses are given as data. The model does not follow Python's `typing` introspection. `TCParams` and `TCSoundParams` field lists are not enumerated, since the `TargetConcept` alias type they use is not defined in `omakase/annotations.py` (see "Import names").
- **Mediator.**
  - The mediator's `NotImplementedError` branch cannot arise: slots are a closed enum.
  - The default filter label that `_get_cards` stores is assumed to be written without a notification. `get_filter_dp` and its data point are not part of this model.
- **Filter table.** A filter label missing from the filter table (a KeyError in Python) is not modelled; the label-to-code function is total. This concerns both lookups, `DecksLevel.DeckEditTab.GetCards` (`omakase/frontend/tabs/edit_decks/deckslevel.py:183`) and `EditDecks.EditDeckContent.AssignCardsFromDeck` (`omakase/frontend/tabs/edit_decks.py:241`).
- `DecksLevel.MediatorFx`: assumes that assigning the `value` of the last-selected-deck data point, or of a deck's filter data point, notifies that observable's observers (`omakase/frontend/tabs/edit_decks/deckslevel.py:166-173`, `416-420`, `513-517`). `LastSelectedDeckObl`, `DeckFilterCorrObl` and their data points are defined nowhere in the source (see "Import names"). The nearest shown setters, `CachedOmUserData.state` (`omakase/backend/om_user.py:107-109`) and `set_filter_for_deck` (`omakase/backend/om_user.py:156-159`), do not notify.
- `ObserverLogic.Observable.Notify`: observers are opaque ids that cannot act. An observer that reassigns the observable, or attaches another observer, while `notify` walks the live list (`omakase/observer_logic.py:71-73`) is not modelled. The promise of the three `Set` methods that every observer reads the new value rests on this.
- `OmUser.EnsurePath`: `point_to_om_user_subcache` is defined nowhere in the source (see "Import names"). `EnsurePath` states what the model assumes of it: missing levels are created as empty dicts, and an existing level that is not a dict raises TypeError. The failure claim of `OmUser.EnsurePathFailsOnlyOnShape` and the requires of the mapper constructor rest on this assumption.
- `OmUser.DeckFilterCorr.constructor`: requires a stored filter map to be a dict. The source adopts any stored value (`omakase/backend/om_user.py:151-154`); no shown code writes a non-dict there.
- `EditDecks.EditDeckContent.GetCurrentFilterUiName`: takes a deck name, never None. On an empty deck list the source passes None on (`omakase/frontend/tabs/edit_decks.py:148-151`, `203-205`), and Python stores the label under a None key. The cache of this model has string keys only. `EditDecks.EditDeckContent.AssignCardsFromDeck` does take None.
- `NoteFieldMap.SanitizeAsWritten`: does not model the partial deletion that happens before the RuntimeError is raised. It states only that the error is raised, and when.
- `NoteFieldMap.MnemonicNoteFieldMapData.constructor`: requires that every existing level of the association path is a dict. What `point_to_om_user_subcache` would do otherwise is not stated anywhere, since the source does not define it.
- `EditDecks.EditDeckContent.GetCurrentDeckName`: does not model `_display_if_logged.refresh()` on an empty deck list.
- **Import names.** Several core modules import names that the files they import from do not define, so as the source stands these modules raise ImportError when imported. The model describes their evident intent.
  - `DECK_FILTER_CORR_KEY` from `omakase/backend/om_user.py` and `OM_USERNAME_KEY` from `omakase/frontend/web_user.py`: the model uses the defined `DECK_UI_FILTER_CORR_KEY` and `USERNAME_KEY`.
  - `ComponentConcept`, `NoteFieldName`, `NoteType`, `PromptParamName` and `TargetConcept` from `omakase/annotations.py` (`omakase/backend/mnemonics/base.py:8-14`, `omakase/backend/mnemonics.py:5-11`): that file defines only `FieldName` and `FieldValue`. The model uses plain strings.
  - `CachedUserDataPoint` and `point_to_om_user_subcache` from `omakase/backend/om_user.py` (`omakase/backend/mnemonics/base.py:15-21`, `omakase/backend/mnemonics.py:12-18`): that file defines neither. The model's `OmUser.EnsurePath` stands in for the second.
  - `DeckName`, `MnemonicUiLabel`, `NoteFieldName` and `NoteType` from `omakase/annotations.py`, and `DeckFilterCorrObl` and `LastSelectedDeckObl` from `omakase/backend/om_user.py` (`omakase/frontend/tabs/edit_decks/deckslevel.py:35`, `50`): none is defined there. The model reads the two observables as the defined `LastSelectedDeck` and `DeckFilterCorr`.
  - `SoundTargetComponentsData` from `omakase/backend/mnemonics/tc_sound.py` (`omakase/backend/mnemonics/__init__.py:9`): that file defines `SoundTargetComponents`, which the model follows.
- **Module copies.** `omakase/backend/mnemonics.py` repeats the prompt-parameter logic and the mapper of `omakase/backend/mnemonics/base.py`. The package `base.py` is cited; both copies behave the same.

## Findings

| source | as written | input that shows it | evidently intended | confidence | as-written member | corrected member |
|---|---|---|---|---|---|---|
| omakase/backend/mnemonics/base.py:481-483 | keys are deleted from the dict while iterating over its keys | associations `{"old_name": None}` with string parameters `["mnemonic"]` raise RuntimeError | stale keys are dropped (iterate over a copy of the keys) | high, not executed | NoteFieldMap.SanitizeAsWritten | NoteFieldMap.SanitizePromptNoteAssocs |
| omakase/backend/mnemonics/base.py:350-352 | the nested dict check discards its recursive results and returns True | field `{"a": {"x": ""}}` counts as filled out | a dict of dicts is filled out when some nested dict is | high, not executed | PromptParams.NestedDictNonEmptyStr | PromptParams.NestedDictNonEmptyStrIntended |
| omakase/backend/mnemonics/base.py:438-440 | `genout_note_assocs` is read but never assigned | any call raises AttributeError | compare the stored generation-output field with the note fields | high, not executed | NoteFieldMap.MnemonicNoteFieldMapData.GenoutIsAssociatedAsWritten | NoteFieldMap.MnemonicNoteFieldMapData.GenoutIsAssociatedToNoteField |
| omakase/backend/mnemonics/base.py:86-91 | each level rebinds its children's `notify` when it is built, before its own is rebound, so fields keep their row's `notify` | any field of a built prompt data: its `notify` never reaches the prompt data's observers | the developer note (lines 33-39): the prompt data's `notify` is shared by all inner objects | medium, not executed | PromptSchema.NewFieldsData | PromptSchema.NewFieldsDataShared |
| omakase/frontend/tabs/edit_decks/deckslevel.py:256 | the initial cascade starts from the last selected deck and skips deck-name sanitizing | decks `["A"]`, stored deck `"B"`: `"B"` stays selected | start from the deck names, whose handler sanitizes the deck | medium, not executed | DecksLevel.DeckEditTab.AsWritten | DecksLevel.DeckEditTab.constructor |
