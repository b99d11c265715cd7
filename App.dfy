/**
  The submit handlers of the application component: the address search form
  (postcode and house number), the person form (first and last name and the
  chosen candidate) and the "clear all fields" button. Each handler checks its
  inputs in a fixed order and stops at the first failure with a fixed message;
  the checks are pure functions here and the handlers are methods on a class
  holding the component's state.
 */
module AppComponent {
  import opened Wrappers
  import opened AddressBook
  import FormFields

  const MandatoryAddressError := "Postcode and house number fields mandatory!"
  const DigitsError := "Postcode and house number be all digits!"
  const ShortPostcodeError := "Postcode must be at least 4 digits"
  const MandatoryNameError := "First name and last name fields mandatory!"
  const NoSelectionError := "No address selected, try to select an address or find one if you haven't"
  const NotFoundError := "Selected address not found"

  /** The form fields the component creates its form-values store with. */
  const InitialFormValues: map<string, string> :=
    map["postCode" := "", "houseNumber" := "", "firstName" := "", "lastName" := "",
        "selectedAddress" := ""]

  /** A form value; a missing key reads as `undefined`, which the checks treat like "". */
  function Field(values: map<string, string>, name: string): string {
    if name in values then values[name] else ""
  }

  // ---------------------------------------------------------------------
  // Address search

  /** The parameters of the lookup request a valid search sends. */
  datatype SearchQuery = SearchQuery(postcode: string, streetnumber: string)

  /** Outcome of the search form's checks. */
  datatype SearchCheck = Search(query: SearchQuery) | SearchRejected(message: string)

  /** An ASCII decimal digit, as `\d` matches without the Unicode flag. */
  predicate IsDigit(c: char) {
    '0' <= c <= '9'
  }

  /** The regular expression `^\d+$`: one or more digits and nothing else. */
  predicate AllDigits(s: string) {
    |s| > 0 && forall i :: 0 <= i < |s| ==> IsDigit(s[i])
  }

  /** What the lookup endpoint requires: digits only, and a postcode of at least 4 of them. */
  predicate ValidSearch(postCode: string, houseNumber: string) {
    AllDigits(postCode) && AllDigits(houseNumber) && |postCode| >= 4
  }

  /** The search form's checks, in the handler's order. */
  function CheckSearchInput(postCode: string, houseNumber: string): (r: SearchCheck)
    ensures r.Search? <==> ValidSearch(postCode, houseNumber)
    ensures r.Search? ==> r.query == SearchQuery(postCode, houseNumber)
    ensures postCode == "" || houseNumber == "" ==> r == SearchRejected(MandatoryAddressError)
    ensures r == SearchRejected(DigitsError)
        <==> postCode != "" && houseNumber != "" && !(AllDigits(postCode) && AllDigits(houseNumber))
    ensures r == SearchRejected(ShortPostcodeError)
        <==> AllDigits(postCode) && AllDigits(houseNumber) && |postCode| < 4
  {
    if postCode == "" || houseNumber == "" then SearchRejected(MandatoryAddressError)
    else if !AllDigits(postCode) || !AllDigits(houseNumber) then SearchRejected(DigitsError)
    else if |postCode| < 4 then SearchRejected(ShortPostcodeError)
    else Search(SearchQuery(postCode, houseNumber))
  }

  // ---------------------------------------------------------------------
  // Person form

  /** Outcome of the person form's checks: the entry to save, or the error. */
  datatype PersonCheck = Save(entry: Address) | PersonRejected(message: string)

  /** `Array.prototype.find` by id: the index of the first candidate with that id. */
  function FindIndex(xs: seq<Address>, id: string): (r: Option<nat>)
    ensures r.Some? ==> r.value < |xs| && xs[r.value].id == id
    ensures r.Some? ==> forall j :: 0 <= j < r.value ==> xs[j].id != id
    ensures r.None? <==> forall j :: 0 <= j < |xs| ==> xs[j].id != id
  {
    if xs == [] then None
    else if xs[0].id == id then Some(0)
    else
      match FindIndex(xs[1..], id)
      case None => None
      case Some(k) => Some(k + 1)
  }

  /** The person form's checks, in the handler's order, and the entry they compose. */
  function CheckPersonInput(firstName: string, lastName: string, selected: string,
                            candidates: seq<Address>): (r: PersonCheck)
    ensures r.Save? <==> firstName != "" && lastName != "" && selected != ""
                         && exists k :: 0 <= k < |candidates| && candidates[k].id == selected
    ensures r.Save? ==> exists k :: 0 <= k < |candidates| && candidates[k].id == selected
                         && (forall j :: 0 <= j < k ==> candidates[j].id != selected)
                         && r.entry.firstName == firstName && r.entry.lastName == lastName
                         && r.entry.id == candidates[k].id
                         && r.entry.houseNumber == candidates[k].houseNumber
                         && r.entry.street == candidates[k].street
                         && r.entry.city == candidates[k].city
                         && r.entry.postcode == candidates[k].postcode
    ensures firstName == "" || lastName == "" ==> r == PersonRejected(MandatoryNameError)
    ensures r == PersonRejected(NoSelectionError)
        <==> firstName != "" && lastName != "" && (selected == "" || candidates == [])
    ensures r == PersonRejected(NotFoundError)
        <==> firstName != "" && lastName != "" && selected != "" && candidates != []
             && forall k :: 0 <= k < |candidates| ==> candidates[k].id != selected
  {
    if firstName == "" || lastName == "" then PersonRejected(MandatoryNameError)
    else if selected == "" || |candidates| == 0 then PersonRejected(NoSelectionError)
    else
      match FindIndex(candidates, selected)
      case None => PersonRejected(NotFoundError)
      case Some(k) => Save(candidates[k].(firstName := firstName, lastName := lastName))
  }

  // ---------------------------------------------------------------------
  // The component's state and handlers

  class App {
    /** The form-values store (`values`, `handleChange`, `resetFields`). */
    const form: FormFields.FormStore
    /** The error message slot; `None` is `undefined`. */
    var error: Option<string>
    /** The candidate addresses found by the last search. */
    var addresses: seq<Address>
    /** The address-book store the component dispatches to. */
    var book: State
    /** Every action dispatched to the address-book store so far. */
    ghost var dispatched: seq<Action>

    /** The store holds what the actions it has seen, whoever dispatched them, produced. */
    ghost predicate Valid()
      reads this
    {
      book == Replay(dispatched)
    }

    /** Mounting the component over a store that has already seen `history`. */
    constructor (history: seq<Action>)
      ensures Valid()
      ensures fresh(form)
      ensures form.initialValues == InitialFormValues && form.values == InitialFormValues
      ensures error == None && addresses == [] && book == Replay(history) && dispatched == history
    {
      form := new FormFields.FormStore(InitialFormValues);
      error := None;
      addresses := [];
      book := Replay(history);
      dispatched := history;
    }

    /**
      `handleAddressSubmit` up to the lookup: on a failed check it sets the
      error and stops; otherwise it clears the error and the candidates and
      returns the request to send.
     */
    method HandleAddressSubmit() returns (query: Option<SearchQuery>)
      requires Valid()
      modifies this
      ensures Valid()
      ensures book == old(book) && dispatched == old(dispatched)
      ensures form.values == old(form.values)
      ensures match CheckSearchInput(Field(form.values, "postCode"), Field(form.values, "houseNumber"))
              case SearchRejected(message) =>
                error == Some(message) && addresses == old(addresses) && query == None
              case Search(q) =>
                error == None && addresses == [] && query == Some(q)
    {
      var postCode := Field(form.values, "postCode");
      var houseNumber := Field(form.values, "houseNumber");
      if postCode == "" || houseNumber == "" {
        error := Some(MandatoryAddressError);
        return None;
      }
      if !AllDigits(postCode) || !AllDigits(houseNumber) {
        error := Some(DigitsError);
        return None;
      }
      if |postCode| < 4 {
        error := Some(ShortPostcodeError);
        return None;
      }
      error := None;
      addresses := [];
      query := Some(SearchQuery(postCode, houseNumber));
    }

    /** A successful lookup: its transformed records become the candidates. */
    method ReceiveCandidates(found: seq<Address>)
      requires Valid()
      modifies this`addresses
      ensures Valid()
      ensures addresses == found
    {
      addresses := found;
    }

    /**
      `handlePersonSubmit`: on a failed check it sets the error and stops;
      otherwise it dispatches exactly one `addAddress` of the selected
      candidate carrying the entered names. The error slot is left as it was
      on success.
     */
    method HandlePersonSubmit()
      requires Valid()
      modifies this
      ensures Valid()
      ensures NoDuplicatePersons(old(book).addresses) ==> NoDuplicatePersons(book.addresses)
      ensures (forall i :: 0 <= i < |dispatched| ==> KeepsPersonsDistinct(dispatched[i]))
              ==> NoDuplicatePersons(book.addresses)
      ensures addresses == old(addresses) && form.values == old(form.values)
      ensures match CheckPersonInput(Field(form.values, "firstName"), Field(form.values, "lastName"),
                                     Field(form.values, "selectedAddress"), addresses)
              case PersonRejected(message) =>
                error == Some(message) && book == old(book) && dispatched == old(dispatched)
              case Save(entry) =>
                && error == old(error)
                && dispatched == old(dispatched) + [AddAddress(entry)]
                && book == Reduce(Some(old(book)), AddAddress(entry))
    {
      var firstName := Field(form.values, "firstName");
      var lastName := Field(form.values, "lastName");
      var selected := Field(form.values, "selectedAddress");
      ghost var check := CheckPersonInput(firstName, lastName, selected, addresses);
      if firstName == "" || lastName == "" {
        assert check == PersonRejected(MandatoryNameError);
        error := Some(MandatoryNameError);
      } else if selected == "" || |addresses| == 0 {
        assert check == PersonRejected(NoSelectionError);
        error := Some(NoSelectionError);
      } else {
        var found := FindIndex(addresses, selected);
        if found.None? {
          assert check == PersonRejected(NotFoundError);
          error := Some(NotFoundError);
        } else {
          var action := AddAddress(addresses[found.value].(firstName := firstName, lastName := lastName));
          assert check == Save(action.address);
          ReplayAppend(dispatched, action);
          dispatched := dispatched + [action];
          book := Reduce(Some(book), action);
        }
      }
      if forall i :: 0 <= i < |dispatched| ==> KeepsPersonsDistinct(dispatched[i]) {
        ReplayKeepsPersonsDistinct(dispatched);
      }
    }

    /** `clearAllFields`: the form values return to their initial map and the candidates are dropped. */
    method ClearAllFields()
      requires Valid()
      modifies this, form
      ensures Valid()
      ensures form.values == form.initialValues && addresses == []
      ensures error == old(error) && book == old(book) && dispatched == old(dispatched)
    {
      form.ResetFields();
      addresses := [];
    }
  }
}
