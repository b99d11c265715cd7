# Address book: reducer, form store and submit handlers

This project models the part of the address-book application that decides
what reaches the saved address book:

- **The address-book reducer** (`AddressBook.dfy`). The saved list of
  `Address` records (id, firstName, lastName, houseNumber, street, city,
  postcode) and its three transitions: `addAddress` appends a record unless
  an entry with the same firstName and lastName is already stored (then the
  stored entry wins and nothing changes), `removeAddress(id)` drops the
  entries with that id and keeps the rest in order, and `updateAddresses(xs)`
  replaces the whole list. The reducer's own source is not part of this
  model: `Reduce` follows the assertions of its test file. `Replay` is the
  state a fresh store reaches after a sequence of dispatched actions; the
  one-entry-per-person invariant is proved for every such sequence whose
  bulk replacements are themselves free of duplicates.
- **The form-values store** (`FormFields.dfy`). The hook's single `values`
  slot is the field of class `FormStore`; `HandleChange(name, value)` is the
  change handler (the event is reduced to the pair it carries) and
  `ResetFields` restores the initial map.
- **The submit handlers of the application component** (`App.dfy`). The
  ordered checks are pure functions (`CheckSearchInput`, `CheckPersonInput`,
  `FindIndex` for `addresses.find`); class `App` holds the error slot, the
  candidate list, the form store and the address-book store, and its
  methods follow the handlers' early returns and are proved against those
  functions. A ghost log of the actions the address-book store has seen
  (from this component or from anywhere else before it mounted) records
  that a successful person submit dispatches exactly one `addAddress` and
  that no failed check dispatches anything.

Where the design description and the code differ, the model follows the code:

- The design describes a normaliser that takes the raw record and the house
  number. The code at `src/App.tsx:88` passes only the raw record, and the
  normaliser's source is not part of this model, so the lookup's transformed
  candidates are an input (`ReceiveCandidates`) and nothing is claimed about
  how houseNumber is filled.
- The requirement comment above the "Clear all fields" button asks for the
  prior error message to be cleared too; `clearAllFields` does not touch the
  error slot, and neither does `ClearAllFields`.
- On a successful person submit the handler does not clear a previous error;
  `HandlePersonSubmit` keeps it as well.

## Model

| member | source | states |
|---|---|---|
| AddressBook.Reduce | src/core/reducers/addressBookSlice.test.ts:29-54 | an absent state starts from the empty list; `addAddress` leaves the list as it is when the person is stored and appends the record otherwise; after `removeAddress(id)` a record is stored exactly when it was stored before and its id differs; `updateAddresses(xs)` stores exactly xs; any other action leaves the state unchanged |
| AddressBook.Add | src/core/reducers/addressBookSlice.test.ts:33-43 | afterwards the person is stored; the old list is a prefix of the new one; the list grows by one, with the candidate last, exactly when the person was not already stored; the one-entry-per-person invariant is kept |
| AddressBook.AddDuplicateIsNoOp | src/core/reducers/addressBookSlice.test.ts:38-43 | adding a record whose first and last name match a stored entry leaves the list exactly as it was, whatever its id and location fields |
| AddressBook.AddIdempotent | src/core/reducers/addressBookSlice.test.ts:38-43 | adding the same record twice gives the same list as adding it once |
| AddressBook.Remove | src/core/reducers/addressBookSlice.test.ts:45-49 | a record is in the result exactly when it was in the list and its id differs from the removed id; the list never grows |
| AddressBook.RemoveDistributes | src/core/reducers/addressBookSlice.test.ts:45-49 | removal distributes over concatenation, so the surviving entries keep their relative order |
| AddressBook.RemoveMissingIsNoOp | src/core/reducers/addressBookSlice.test.ts:45-49 | removing an id that no entry carries returns the list unchanged |
| AddressBook.RemoveInterior | src/core/reducers/addressBookSlice.test.ts:45-49 | removing the id of an entry whose id is unique yields the entries before it followed by the entries after it |
| AddressBook.RemoveIdempotent | src/core/reducers/addressBookSlice.test.ts:45-49 | removing the same id twice equals removing it once |
| AddressBook.RemovePreservesNoDuplicatePersons | src/core/reducers/addressBookSlice.test.ts:45-49 | removal never creates two entries for one person |
| AddressBook.ReplayKeepsPersonsDistinct | src/core/reducers/addressBookSlice.test.ts:29-54 | any sequence of adds, removes, other actions and duplicate-free bulk replacements, dispatched to a fresh store, leaves at most one entry per (firstName, lastName) |
| AddressBook.UpdateReplacesEverything | src/core/reducers/addressBookSlice.test.ts:51-54 | after `updateAddresses(xs)` the stored list is exactly xs, same elements in the same order, from any prior state |
| AddressBook.UpdateMayStoreDuplicates | src/core/reducers/addressBookSlice.test.ts:51-54 | bulk replacement applies no duplicate filtering: it can store the same person twice |
| AddressBook.InitialStateIsEmpty | src/core/reducers/addressBookSlice.test.ts:29-31 | an unknown action on an absent state yields the empty address list |
| AddressBook.AddToInitialState | src/core/reducers/addressBookSlice.test.ts:33-36 | adding a record to the initial state yields the one-element list holding it |
| AddressBook.AddSamePersonOtherAddress | src/core/reducers/addressBookSlice.test.ts:38-43 | adding John Doe again with any other id and street leaves a list of length one |
| AddressBook.RemoveFirstOfTwo | src/core/reducers/addressBookSlice.test.ts:45-49 | removing id "1" from [John Doe, Jane Smith] leaves [Jane Smith] |
| AddressBook.EndToEnd | src/core/reducers/addressBookSlice.test.ts:33-49 | add John Doe; a second John Doe at another address is dropped and the original kept; removing id "1" empties the book |
| FormFields.FormStore.constructor | src/ui/hooks/useFormFields.ts:5-6 | right after creation the values equal the initial map |
| FormFields.FormStore.HandleChange | src/ui/hooks/useFormFields.ts:8-11 | the named key gets the new value, every other key keeps its value, and the key set grows by at most that name |
| FormFields.FormStore.ResetFields | src/ui/hooks/useFormFields.ts:13-15 | the values become exactly the initial map, whatever changed before |
| FormFields.LastWriteWins | src/ui/hooks/useFormFields.ts:8-11 | two changes to the same name leave the later value and the other keys as they were |
| FormFields.ResetTwice | src/ui/hooks/useFormFields.ts:13-15 | resetting twice ends in the same state as resetting once: the initial map |
| AppComponent.CheckSearchInput | src/App.tsx:59-72 | a search is accepted exactly when both fields are all ASCII digits and the postcode has at least 4 of them (the house number has no length bound); an empty field gives the mandatory-fields error before anything else, a non-digit the all-digits error, a short postcode the length error; an accepted search queries exactly the entered values |
| AppComponent.FindIndex | src/App.tsx:120-122 | returns the index of the first candidate with the selected id, or nothing exactly when no candidate has it |
| AppComponent.CheckPersonInput | src/App.tsx:108-133 | an entry is saved exactly when both names are non-empty, an address is selected and some candidate has its id; the entry is the first such candidate with the entered names and every other field copied; otherwise the error is the mandatory-names one first, then the no-selection one for an empty selection or empty candidate list, then not-found |
| AppComponent.App.constructor | src/App.tsx:19-45 | the form starts from the five empty fields, with no error and no candidates, over an address-book store that may already have seen any actions at all (duplicate-carrying bulk replacements included) and holds what they produced |
| AppComponent.App.HandleAddressSubmit | src/App.tsx:56-75 | a failed check sets its error and changes nothing else; a passing one clears the error and the candidates and yields the request for the entered postcode and house number; the address book is never touched |
| AppComponent.App.ReceiveCandidates | src/App.tsx:86-89 | the lookup's transformed records become the candidate list |
| AppComponent.App.HandlePersonSubmit | src/App.tsx:105-134 | a failed check sets its error and dispatches nothing; a passing one dispatches exactly one `addAddress` of the composed entry and leaves the error slot alone; an add never creates a second entry for a person: a book with one entry per person before still has one after, and so does the book of any store whose bulk replacements were all free of duplicates |
| AppComponent.App.ClearAllFields | src/App.tsx:136-139 | the form values return to the initial map and the candidates are emptied; the error slot and the address book are unchanged |

## Left out

- The lookup request itself (`fetch`, `res.json()`, the server's `errormessage`, the mapping of exceptions to messages, the `loading` flag, src/App.tsx:76-99): network I/O and asynchronous plumbing. `AppComponent.App.HandleAddressSubmit` stops where the request would be sent and returns its parameters; only the success branch's `setAddresses` is modelled, by `ReceiveCandidates`.
- `transformAddress` and `RawAddressModel`: their source is not part of this model, so the candidates arrive already transformed and nothing is said about how their fields are filled.
- The reducer's own source, Redux dispatch and immer: the reducer is modelled only as the pure transition its tests assert. Four choices the tests do not pin down come from the design's first-write-wins and append rules, not from the test file: a duplicate add leaves the stored list exactly as it was, keeping the stored entry (the test checks only that the length stays 1; this is what `AddressBook.Add`, `AddressBook.AddDuplicateIsNoOp` and `AddressBook.EndToEnd` state); a new person is appended at the end (the test adds only to an empty list); `removeAddress` drops every entry with the id; and an action of any other type leaves the state as it is.
- Other writers of the address-book store: the store is app-wide, and other components (the address-book list) may dispatch `removeAddress` or `updateAddresses` to it. The model lets the store have seen any actions at all before the component mounts (`AppComponent.App.constructor` takes that history, with no restriction on it), but it does not interleave them with the component's handlers: between handler calls only the component's own methods change `book`.
- All rendering (src/App.tsx:141-240 and the InputText, ErrorMessage and Spinner components, with their rendering tests): presentational only.
- React's state and hook lifecycle and the change-event object: a state slot is a field, a change is the (name, value) pair it carries.
- `AppComponent.Field`: JavaScript reads a missing form key as `undefined`; the checks only test it for emptiness first, so it is read as the empty string.
- Strings are sequences of characters compared exactly; JavaScript's UTF-16 code units are not modelled (the length check is reached only by all-digit, hence ASCII, postcodes).
