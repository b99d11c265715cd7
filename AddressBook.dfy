/**
  The address-book reducer: the pure transition function that owns the list
  of saved addresses. It is specified by the assertions of the reducer's test
  file (the slice source itself is not part of this model): an initial state
  with no addresses, `addAddress` with duplicate suppression by person name,
  `removeAddress` by id and `updateAddresses` replacing the whole list.
 */
module AddressBook {
  import opened Wrappers

  /** A saved or candidate address; every field is a string, as in the source. */
  datatype Address = Address(
    id: string,
    firstName: string,
    lastName: string,
    houseNumber: string,
    street: string,
    city: string,
    postcode: string)

  /** The slice state `{ addresses: [...] }`. */
  datatype State = State(addresses: seq<Address>)

  /** The actions the slice understands, and any other action type. */
  datatype Action =
    | AddAddress(address: Address)
    | RemoveAddress(id: string)
    | UpdateAddresses(replacement: seq<Address>)
    | OtherAction(kind: string)

  const InitialState: State := State([])

  /** Two entries denote the same person when first and last name match exactly. */
  predicate SamePerson(a: Address, b: Address) {
    a.firstName == b.firstName && a.lastName == b.lastName
  }

  /** Some stored entry already belongs to the person of `a`. */
  predicate HasPerson(xs: seq<Address>, a: Address) {
    exists i :: 0 <= i < |xs| && SamePerson(xs[i], a)
  }

  /** The address book's invariant: one entry per (firstName, lastName). */
  ghost predicate NoDuplicatePersons(xs: seq<Address>) {
    forall i, j :: 0 <= i < j < |xs| ==> !SamePerson(xs[i], xs[j])
  }

  /**
    `addAddress`: append the candidate unless the same person is already
    stored, in which case the stored entry wins and the list is unchanged.
   */
  function Add(xs: seq<Address>, a: Address): (r: seq<Address>)
    ensures HasPerson(r, a)
    ensures xs <= r && |r| <= |xs| + 1
    ensures |r| == |xs| + 1 <==> !HasPerson(xs, a)
    ensures |r| == |xs| + 1 ==> r[|xs|] == a
    ensures NoDuplicatePersons(xs) ==> NoDuplicatePersons(r)
  {
    if HasPerson(xs, a) then xs
    else
      var r := xs + [a];
      assert SamePerson(r[|xs|], a);
      r
  }

  /** `removeAddress`: drop every entry with the given id, keeping the others in order. */
  function Remove(xs: seq<Address>, id: string): (r: seq<Address>)
    ensures |r| <= |xs|
    ensures forall a :: a in r <==> a in xs && a.id != id
  {
    if xs == [] then []
    else (if xs[0].id == id then [] else [xs[0]]) + Remove(xs[1..], id)
  }

  /** The slice reducer; an absent state (`undefined`) starts from the initial one. */
  function Reduce(state: Option<State>, action: Action): (r: State)
    ensures var s := if state.Some? then state.value else InitialState;
      match action
      case AddAddress(a) => r.addresses == (if HasPerson(s.addresses, a) then s.addresses else s.addresses + [a])
      case RemoveAddress(id) => forall b :: b in r.addresses <==> b in s.addresses && b.id != id
      case UpdateAddresses(xs) => r.addresses == xs
      case OtherAction(_) => r == s
  {
    var s := if state.Some? then state.value else InitialState;
    match action
    case AddAddress(a) => State(Add(s.addresses, a))
    case RemoveAddress(id) => State(Remove(s.addresses, id))
    case UpdateAddresses(xs) => State(xs)
    case OtherAction(_) => s
  }

  /** The state reached by dispatching `actions`, in order, to a fresh store. */
  function Replay(actions: seq<Action>): State
  {
    if actions == [] then InitialState
    else Reduce(Some(Replay(actions[..|actions| - 1])), actions[|actions| - 1])
  }

  /** An action that cannot break the one-entry-per-person invariant by itself. */
  ghost predicate KeepsPersonsDistinct(action: Action) {
    action.UpdateAddresses? ==> NoDuplicatePersons(action.replacement)
  }

  // ---------------------------------------------------------------------
  // Properties of Add

  /** A duplicate add leaves the stored list exactly as it was (first write wins). */
  lemma AddDuplicateIsNoOp(xs: seq<Address>, a: Address, k: nat)
    requires k < |xs| && SamePerson(xs[k], a)
    ensures Add(xs, a) == xs
  {
  }

  /** A second add of the same candidate changes nothing. */
  lemma AddIdempotent(xs: seq<Address>, a: Address)
    ensures Add(Add(xs, a), a) == Add(xs, a)
  {
  }

  // ---------------------------------------------------------------------
  // Properties of Remove

  /** Removal works element by element, so it keeps the relative order of what remains. */
  lemma {:induction false} RemoveDistributes(xs: seq<Address>, ys: seq<Address>, id: string)
    ensures Remove(xs + ys, id) == Remove(xs, id) + Remove(ys, id)
  {
    if xs == [] {
      assert xs + ys == ys;
    } else {
      assert (xs + ys)[1..] == xs[1..] + ys;
      RemoveDistributes(xs[1..], ys, id);
    }
  }

  /** Removing an id that no entry carries returns the list unchanged. */
  lemma {:induction false} RemoveMissingIsNoOp(xs: seq<Address>, id: string)
    requires forall i :: 0 <= i < |xs| ==> xs[i].id != id
    ensures Remove(xs, id) == xs
  {
    if xs != [] {
      RemoveMissingIsNoOp(xs[1..], id);
    }
  }

  /** Removing the id of one entry whose id is unique drops exactly that entry. */
  lemma RemoveInterior(before: seq<Address>, x: Address, after: seq<Address>)
    requires forall i :: 0 <= i < |before| ==> before[i].id != x.id
    requires forall i :: 0 <= i < |after| ==> after[i].id != x.id
    ensures Remove(before + [x] + after, x.id) == before + after
  {
    var id := x.id;
    RemoveDistributes(before + [x], after, id);
    RemoveDistributes(before, [x], id);
    RemoveMissingIsNoOp(before, id);
    RemoveMissingIsNoOp(after, id);
    assert Remove([x], id) == [] by {
      assert [x][1..] == [];
    }
    calc {
      Remove(before + [x] + after, id);
      Remove(before + [x], id) + Remove(after, id);
      Remove(before, id) + Remove([x], id) + Remove(after, id);
      before + [] + after;
    }
    assert before + [] == before;
  }

  /** Removing twice with the same id is the same as removing once. */
  lemma RemoveIdempotent(xs: seq<Address>, id: string)
    ensures Remove(Remove(xs, id), id) == Remove(xs, id)
  {
    var r := Remove(xs, id);
    assert forall i :: 0 <= i < |r| ==> r[i] in r;
    RemoveMissingIsNoOp(r, id);
  }

  /** The invariant for a list split into its head and tail. */
  lemma NoDuplicatePersonsCons(x: Address, xs: seq<Address>)
    ensures NoDuplicatePersons([x] + xs)
        <==> NoDuplicatePersons(xs) && forall b :: b in xs ==> !SamePerson(x, b)
  {
    var s := [x] + xs;
    if NoDuplicatePersons(s) {
      forall i, j | 0 <= i < j < |xs| ensures !SamePerson(xs[i], xs[j]) {
        assert s[i + 1] == xs[i] && s[j + 1] == xs[j];
      }
      forall b | b in xs ensures !SamePerson(x, b) {
        var j :| 0 <= j < |xs| && xs[j] == b;
        assert s[0] == x && s[j + 1] == b;
      }
    }
  }

  /** Removing entries cannot create a duplicate person. */
  lemma {:induction false} RemovePreservesNoDuplicatePersons(xs: seq<Address>, id: string)
    requires NoDuplicatePersons(xs)
    ensures NoDuplicatePersons(Remove(xs, id))
  {
    if xs != [] {
      assert xs == [xs[0]] + xs[1..];
      NoDuplicatePersonsCons(xs[0], xs[1..]);
      RemovePreservesNoDuplicatePersons(xs[1..], id);
      NoDuplicatePersonsCons(xs[0], Remove(xs[1..], id));
    }
  }

  // ---------------------------------------------------------------------
  // Properties of the reducer

  /** A store fed only actions that keep persons distinct never holds a duplicate person. */
  lemma {:induction false} ReplayKeepsPersonsDistinct(actions: seq<Action>)
    requires forall i :: 0 <= i < |actions| ==> KeepsPersonsDistinct(actions[i])
    ensures NoDuplicatePersons(Replay(actions).addresses)
  {
    if actions != [] {
      var init := actions[..|actions| - 1];
      ReplayKeepsPersonsDistinct(init);
      var s := Replay(init);
      match actions[|actions| - 1]
      case RemoveAddress(id) => RemovePreservesNoDuplicatePersons(s.addresses, id);
      case AddAddress(_) =>
      case UpdateAddresses(_) =>
      case OtherAction(_) =>
    }
  }

  /** Dispatching one more action to a replayed store is replaying the longer log. */
  lemma ReplayAppend(actions: seq<Action>, action: Action)
    ensures Replay(actions + [action]) == Reduce(Some(Replay(actions)), action)
  {
    assert (actions + [action])[..|actions|] == actions;
  }

  /** `updateAddresses` makes the stored list exactly its argument, whatever came before. */
  lemma UpdateReplacesEverything(state: Option<State>, xs: seq<Address>)
    ensures Reduce(state, UpdateAddresses(xs)).addresses == xs
  {
  }

  /** Bulk replacement trusts its input: it is the one action that can store a duplicate. */
  lemma UpdateMayStoreDuplicates(a: Address)
    ensures !NoDuplicatePersons(Reduce(None, UpdateAddresses([a, a])).addresses)
  {
    assert Reduce(None, UpdateAddresses([a, a])).addresses[0] == a;
    assert Reduce(None, UpdateAddresses([a, a])).addresses[1] == a;
  }

  // ---------------------------------------------------------------------
  // The scenarios of the reducer's test file

  const JohnDoe := Address("1", "John", "Doe", "123", "George St", "Sydney", "2000")
  const JaneSmith := Address("2", "Jane", "Smith", "456", "King St", "Melbourne", "3000")

  /** An unknown action on an absent state yields the empty initial state. */
  lemma InitialStateIsEmpty(kind: string)
    ensures Reduce(None, OtherAction(kind)) == State([])
  {
  }

  /** Adding to the initial state stores exactly the one new entry. */
  lemma AddToInitialState(a: Address)
    ensures Reduce(None, AddAddress(a)).addresses == [a]
  {
  }

  /** Re-adding the same person under another id and street keeps one entry. */
  lemma AddSamePersonOtherAddress(id: string, street: string)
    ensures |Reduce(Some(State([JohnDoe])), AddAddress(JohnDoe.(id := id, street := street))).addresses| == 1
  {
    AddDuplicateIsNoOp([JohnDoe], JohnDoe.(id := id, street := street), 0);
  }

  /** Removing id "1" from the two-entry book leaves the other entry. */
  lemma RemoveFirstOfTwo()
    ensures Reduce(Some(State([JohnDoe, JaneSmith])), RemoveAddress("1")).addresses == [JaneSmith]
  {
    RemoveInterior([], JohnDoe, [JaneSmith]);
  }

  /**
    Add John Doe, try to add John Doe again at another address (the first
    entry is kept), then remove id "1": the book is empty again.
   */
  lemma EndToEnd()
    ensures Replay([AddAddress(JohnDoe)]).addresses == [JohnDoe]
    ensures Replay([AddAddress(JohnDoe), AddAddress(JohnDoe.(id := "2", street := "Other St"))]).addresses
            == [JohnDoe]
    ensures Replay([AddAddress(JohnDoe), AddAddress(JohnDoe.(id := "2", street := "Other St")),
                    RemoveAddress("1")]).addresses == []
  {
    var other := JohnDoe.(id := "2", street := "Other St");
    var a1, a2, a3 := AddAddress(JohnDoe), AddAddress(other), RemoveAddress("1");
    assert Replay([a1]) == State([JohnDoe]) by {
      ReplayAppend([], a1);
      assert [] + [a1] == [a1];
    }
    assert Replay([a1, a2]) == State([JohnDoe]) by {
      ReplayAppend([a1], a2);
      assert [a1] + [a2] == [a1, a2];
      AddDuplicateIsNoOp([JohnDoe], other, 0);
    }
    assert Replay([a1, a2, a3]) == State([]) by {
      ReplayAppend([a1, a2], a3);
      assert [a1, a2] + [a3] == [a1, a2, a3];
      RemoveInterior([], JohnDoe, []);
      assert [] + [JohnDoe] + [] == [JohnDoe];
    }
  }
}
