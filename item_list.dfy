/** The item-list form: its draft state, the duplicate check and the handlers
    that validate input and dispatch to the slice (src/Components/itemList.tsx). */
module ItemListComponent {
  import opened Wrappers
  import opened ItemSlice

  /** The component's own record type: the six declared fields, without the slice's flags. */
  datatype Draft = Draft(id: int, name: string, age: int, phoneNumber: int, jobRole: string, email: string)

  /** The all-empty add form. */
  const EmptyDraft: Draft := Draft(0, "", 0, 0, "", "")

  /** The message shown when a duplicate phone number or email blocks a save. */
  const DuplicateMessage: string := "Phone number or email already exists."

  /** The add button's guard: every required field is truthy and the age positive.
      The reset form never passes it, so a second click after a successful add does nothing. */
  function RequiredFieldsPresent(d: Draft): (r: bool)
    ensures r ==> d != EmptyDraft
  {
    d.name != "" && d.email != "" && d.phoneNumber != 0 && d.age > 0 && d.jobRole != ""
  }

  /** `{ ...draft, id, isLoading: false, error: null }`: the draft's fields under the given id, flags cleared. */
  function ToItem(d: Draft, id: int): (r: Item)
    ensures r.id == id && !r.isLoading && r.error == None
  {
    Item(id, d.name, d.age, d.phoneNumber, d.jobRole, d.email, false, None)
  }

  /** The row copied into the edit draft: its six declared fields. */
  function DraftOf(item: Item): (d: Draft)
    ensures d.id == item.id
  {
    Draft(item.id, item.name, item.age, item.phoneNumber, item.jobRole, item.email)
  }

  /** Dispatching a draft keeps every form field; only the id is overridden. */
  lemma DraftOfToItem(d: Draft, id: int)
    ensures DraftOf(ToItem(d, id)) == d.(id := id)
  {
  }

  /** Saving an unedited row under its own id gives back the row with its flags cleared. */
  lemma ToItemDraftOf(item: Item)
    ensures ToItem(DraftOf(item), item.id) == item.(isLoading := false, error := None)
  {
  }

  /** One step of the scan: the item shares the phone number or the email and is not the excluded row. */
  function Clashes(item: Item, phoneNumber: int, email: string, exclude: Option<int>): (r: bool)
    ensures exclude == Some(item.id) ==> !r
    ensures exclude == None ==> (r <==> item.phoneNumber == phoneNumber || item.email == email)
  {
    (item.phoneNumber == phoneNumber || item.email == email) && exclude != Some(item.id)
  }

  /** checkForDuplicates: `items.some(...)`, a left-to-right scan. */
  function CheckForDuplicates(items: seq<Item>, phoneNumber: int, email: string, exclude: Option<int>): (r: bool)
    ensures r <==> exists i :: 0 <= i < |items| && Clashes(items[i], phoneNumber, email, exclude)
    ensures exclude == None ==>
      (r <==> exists i :: 0 <= i < |items| && (items[i].phoneNumber == phoneNumber || items[i].email == email))
  {
    if items == [] then false
    else Clashes(items[0], phoneNumber, email, exclude) || CheckForDuplicates(items[1..], phoneNumber, email, exclude)
  }

  /** The invariant the form tries to keep: no two items share a phone number or an email. */
  predicate ContactsUnique(items: seq<Item>) {
    forall i, j :: 0 <= i < j < |items| ==>
      items[i].phoneNumber != items[j].phoneNumber && items[i].email != items[j].email
  }

  /** No two items carry the same id. */
  predicate IdsUnique(items: seq<Item>) {
    forall i, j :: 0 <= i < j < |items| ==> items[i].id != items[j].id
  }

  // ---------------------------------------------------------------------------
  // The duplicate check against the reducers
  // ---------------------------------------------------------------------------

  /** Excluding the row's id is the same as checking against the items without that id:
      the row's own phone number and email never block its save. */
  lemma ExcludeRowIsWithout(items: seq<Item>, phoneNumber: int, email: string, id: int)
    ensures CheckForDuplicates(items, phoneNumber, email, Some(id))
        == CheckForDuplicates(Without(items, id), phoneNumber, email, None)
  {
  }

  /** With one item of phone 1 and email "a", a draft with phone 1 and email "b" is
      blocked, and one with phone 2 and email "b" passes. */
  lemma DuplicateCheckExample()
    ensures var items := [Item(7, "Bob", 30, 1, "Eng", "a", false, None)];
      CheckForDuplicates(items, 1, "b", None) && !CheckForDuplicates(items, 2, "b", None)
  {
  }

  /** Appending an item that passes the duplicate check keeps contacts unique. */
  lemma AddKeepsContactsUnique(items: seq<Item>, item: Item)
    requires ContactsUnique(items)
    requires !CheckForDuplicates(items, item.phoneNumber, item.email, None)
    ensures ContactsUnique(items + [item])
  {
  }

  /** With unique ids, replacing a row by an edit that passes the duplicate check
      (with that row's id excluded) keeps contacts unique. */
  lemma UpdateKeepsContactsUnique(items: seq<Item>, item: Item)
    requires ContactsUnique(items) && IdsUnique(items)
    requires !CheckForDuplicates(items, item.phoneNumber, item.email, Some(item.id))
    ensures ContactsUnique(UpdatedById(items, item))
  {
  }

  /** Without unique ids the update path can break the invariant: two rows share id 1,
      the edit of the second row takes the first row's slot and the second row's phone number. */
  lemma UpdateNeedsUniqueIds()
    ensures
      var items := [Item(1, "A", 30, 10, "Eng", "a@x", false, None),
                    Item(1, "B", 40, 20, "Ops", "b@x", false, None)];
      var edit := Item(1, "B", 41, 20, "Ops", "b@x", false, None);
      ContactsUnique(items) && !CheckForDuplicates(items, edit.phoneNumber, edit.email, Some(1))
      && !ContactsUnique(UpdatedById(items, edit))
  {
  }

  /** Deleting keeps contacts unique. */
  lemma {:induction false} DeleteKeepsContactsUnique(items: seq<Item>, id: int)
    requires ContactsUnique(items)
    ensures ContactsUnique(Without(items, id))
  {
    if items != [] {
      var tail := items[1..];
      assert ContactsUnique(tail) by {
        forall i, j | 0 <= i < j < |tail|
          ensures tail[i].phoneNumber != tail[j].phoneNumber && tail[i].email != tail[j].email
        {
          assert tail[i] == items[i + 1] && tail[j] == items[j + 1];
        }
      }
      DeleteKeepsContactsUnique(tail, id);
      if items[0].id != id {
        var rest := Without(tail, id);
        assert Without(items, id) == [items[0]] + rest;
        forall x | x in rest ensures items[0].phoneNumber != x.phoneNumber && items[0].email != x.email {
          var t :| 0 <= t < |tail| && tail[t] == x;
          assert items[t + 1] == x;
        }
        ConsKeepsContactsUnique(items[0], rest);
      }
    }
  }

  /** Deleting keeps ids unique. */
  lemma {:induction false} DeleteKeepsIdsUnique(items: seq<Item>, id: int)
    requires IdsUnique(items)
    ensures IdsUnique(Without(items, id))
  {
    if items != [] {
      var tail := items[1..];
      assert IdsUnique(tail) by {
        forall i, j | 0 <= i < j < |tail| ensures tail[i].id != tail[j].id {
          assert tail[i] == items[i + 1] && tail[j] == items[j + 1];
        }
      }
      DeleteKeepsIdsUnique(tail, id);
      if items[0].id != id {
        var rest := Without(tail, id);
        assert Without(items, id) == [items[0]] + rest;
        forall x | x in rest ensures items[0].id != x.id {
          var t :| 0 <= t < |tail| && tail[t] == x;
          assert items[t + 1] == x;
        }
        ConsKeepsIdsUnique(items[0], rest);
      }
    }
  }

  /** Prepending an item apart from all others keeps contacts unique. */
  lemma ConsKeepsContactsUnique(x: Item, s: seq<Item>)
    requires ContactsUnique(s)
    requires forall y :: y in s ==> x.phoneNumber != y.phoneNumber && x.email != y.email
    ensures ContactsUnique([x] + s)
  {
  }

  /** Prepending an item whose id no other item carries keeps ids unique. */
  lemma ConsKeepsIdsUnique(x: Item, s: seq<Item>)
    requires IdsUnique(s)
    requires forall y :: y in s ==> x.id != y.id
    ensures IdsUnique([x] + s)
  {
  }

  // ---------------------------------------------------------------------------
  // The component's state and handlers
  // ---------------------------------------------------------------------------

  /** The ItemList component: its four pieces of local state and the store it reads and dispatches to. */
  class ItemList {
    var newItem: Draft
    var editingId: Option<int>
    var updatedItem: Option<Draft>
    var errorMessage: Option<string>
    const store: ItemStore

    /** The state a freshly mounted component starts from. */
    constructor (store: ItemStore)
      ensures this.store == store
      ensures newItem == EmptyDraft && editingId == None && updatedItem == None && errorMessage == None
    {
      this.store := store;
      newItem := EmptyDraft;
      editingId := None;
      updatedItem := None;
      errorMessage := None;
    }

    /** handleAdd, with `now` standing for Date.now(). */
    method HandleAdd(now: int)
      modifies this, store
      ensures !RequiredFieldsPresent(old(newItem)) ==> unchanged(this) && unchanged(store)
      ensures RequiredFieldsPresent(old(newItem))
              && CheckForDuplicates(old(store.items), old(newItem.phoneNumber), old(newItem.email), None) ==>
        unchanged(store) && errorMessage == Some(DuplicateMessage)
        && newItem == old(newItem) && editingId == old(editingId) && updatedItem == old(updatedItem)
      ensures RequiredFieldsPresent(old(newItem))
              && !CheckForDuplicates(old(store.items), old(newItem.phoneNumber), old(newItem.email), None) ==>
        store.items == old(store.items) + [ToItem(old(newItem), now)]
        && store.isLoading == old(store.isLoading) && store.error == old(store.error)
        && newItem == EmptyDraft && errorMessage == None
        && editingId == old(editingId) && updatedItem == old(updatedItem)
      ensures ContactsUnique(old(store.items)) ==> ContactsUnique(store.items)
      ensures IdsUnique(old(store.items)) && (forall x :: x in old(store.items) ==> x.id != now) ==>
        IdsUnique(store.items)
    {
      if RequiredFieldsPresent(newItem) {
        if CheckForDuplicates(store.items, newItem.phoneNumber, newItem.email, None) {
          errorMessage := Some(DuplicateMessage);
        } else {
          var item := ToItem(newItem, now);
          if ContactsUnique(store.items) {
            AddKeepsContactsUnique(store.items, item);
          }
          store.AddItem(item);
          newItem := EmptyDraft;
          errorMessage := None;
        }
      }
    }

    /** handleUpdate for the row carrying `id`. */
    method HandleUpdate(id: int)
      modifies this, store
      ensures old(updatedItem) == None ==> unchanged(this) && unchanged(store)
      ensures old(updatedItem) != None
              && CheckForDuplicates(old(store.items), old(updatedItem).value.phoneNumber,
                                    old(updatedItem).value.email, Some(id)) ==>
        unchanged(store) && errorMessage == Some(DuplicateMessage)
        && newItem == old(newItem) && editingId == old(editingId) && updatedItem == old(updatedItem)
      ensures old(updatedItem) != None
              && !CheckForDuplicates(old(store.items), old(updatedItem).value.phoneNumber,
                                     old(updatedItem).value.email, Some(id)) ==>
        store.items == UpdatedById(old(store.items), ToItem(old(updatedItem).value, id))
        && store.isLoading == old(store.isLoading) && store.error == old(store.error)
        && editingId == None && updatedItem == None && errorMessage == None
        && newItem == old(newItem)
      ensures IdsUnique(old(store.items)) ==> IdsUnique(store.items)
      ensures ContactsUnique(old(store.items)) && IdsUnique(old(store.items)) ==> ContactsUnique(store.items)
    {
      if updatedItem != None {
        var edit := updatedItem.value;
        if CheckForDuplicates(store.items, edit.phoneNumber, edit.email, Some(id)) {
          errorMessage := Some(DuplicateMessage);
        } else {
          var item := ToItem(edit, id);
          if ContactsUnique(store.items) && IdsUnique(store.items) {
            UpdateKeepsContactsUnique(store.items, item);
          }
          store.UpdateItem(item);
          editingId := None;
          updatedItem := None;
          errorMessage := None;
        }
      }
    }

    /** handleDelete: dispatches deleteItem unconditionally. */
    method HandleDelete(id: int)
      modifies store
      ensures store.items == Without(old(store.items), id)
      ensures store.isLoading == old(store.isLoading) && store.error == old(store.error)
      ensures ContactsUnique(old(store.items)) ==> ContactsUnique(store.items)
      ensures IdsUnique(old(store.items)) ==> IdsUnique(store.items)
    {
      if ContactsUnique(store.items) {
        DeleteKeepsContactsUnique(store.items, id);
      }
      if IdsUnique(store.items) {
        DeleteKeepsIdsUnique(store.items, id);
      }
      store.DeleteItem(id);
    }

    /** The Edit button: the row becomes the edit draft and its id the editing id. */
    method StartEdit(item: Item)
      modifies this
      ensures editingId == Some(item.id) && updatedItem == Some(DraftOf(item))
      ensures newItem == old(newItem) && errorMessage == old(errorMessage)
      ensures store.items == old(store.items)
    {
      editingId := Some(item.id);
      updatedItem := Some(DraftOf(item));
    }

    /** The Cancel button: leaves edit mode; the draft stays and nothing is dispatched. */
    method CancelEdit()
      modifies this
      ensures editingId == None
      ensures store.items == old(store.items)
      ensures newItem == old(newItem) && updatedItem == old(updatedItem) && errorMessage == old(errorMessage)
    {
      editingId := None;
    }
  }
}
