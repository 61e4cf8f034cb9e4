/** The "items" slice: the list of person records, the loading flag and the
    fetch error, and the reducers that change them (src/Features/itemSlice.ts). */
module ItemSlice {
  import opened Wrappers

  /** A person record as the slice stores it. */
  datatype Item = Item(
    id: int,
    name: string,
    age: int,
    phoneNumber: int,
    jobRole: string,
    email: string,
    isLoading: bool,
    error: Option<string>)

  /** The value the fetch thunk rejects with when the server answers with a non-OK status. */
  const FetchFailedMessage: string := "Failed to fetch data from the server"

  /** What the outbound GET produced, as the fetch thunk sees it. */
  datatype Response =
    | Received(ok: bool, body: seq<Item>)  // a response arrived; body is its decoded JSON array
    | NetworkFailure                       // fetch or JSON decoding threw

  // ---------------------------------------------------------------------------
  // Specification functions for the reducers that rewrite the item sequence
  // ---------------------------------------------------------------------------

  /** Array.prototype.findIndex over ids: the first position holding `id`, or -1. */
  function FindIndex(items: seq<Item>, id: int): (r: int)
    ensures -1 <= r < |items|
    ensures r == -1 ==> forall j :: 0 <= j < |items| ==> items[j].id != id
    ensures r != -1 ==> items[r].id == id && forall j :: 0 <= j < r ==> items[j].id != id
  {
    if items == [] then -1
    else if items[0].id == id then 0
    else
      var k := FindIndex(items[1..], id);
      if k == -1 then -1 else k + 1
  }

  /** The items whose id differs from `id`, in their original order (the filter of deleteItem). */
  function Without(items: seq<Item>, id: int): (r: seq<Item>)
    ensures |r| <= |items|
    ensures forall x :: x in r <==> x in items && x.id != id
  {
    if items == [] then []
    else (if items[0].id == id then [] else [items[0]]) + Without(items[1..], id)
  }

  /** The sequence after updateItem: the first item carrying `item.id` is replaced by `item`. */
  function UpdatedById(items: seq<Item>, item: Item): (r: seq<Item>)
    ensures |r| == |items|
    ensures forall j :: 0 <= j < |r| ==> r[j].id == items[j].id
  {
    var k := FindIndex(items, item.id);
    if k == -1 then items else items[k := item]
  }

  // ---------------------------------------------------------------------------
  // Properties of deleteItem
  // ---------------------------------------------------------------------------

  /** The filter keeps relative order: filtering a concatenation filters each part in place. */
  lemma {:induction false} WithoutConcat(a: seq<Item>, b: seq<Item>, id: int)
    ensures Without(a + b, id) == Without(a, id) + Without(b, id)
  {
    if a == [] {
      assert a + b == b;
    } else {
      assert (a + b)[0] == a[0];
      assert (a + b)[1..] == a[1..] + b;
      WithoutConcat(a[1..], b, id);
    }
  }

  /** Deleting an id that no item carries changes nothing. */
  lemma {:induction false} WithoutAbsent(items: seq<Item>, id: int)
    requires forall j :: 0 <= j < |items| ==> items[j].id != id
    ensures Without(items, id) == items
  {
    if items != [] {
      WithoutAbsent(items[1..], id);
      assert [items[0]] + items[1..] == items;
    }
  }

  /** Deleting the same id twice is the same as deleting it once. */
  lemma WithoutIdempotent(items: seq<Item>, id: int)
    ensures Without(Without(items, id), id) == Without(items, id)
  {
    var r := Without(items, id);
    forall j | 0 <= j < |r| ensures r[j].id != id {
      assert r[j] in r;
    }
    WithoutAbsent(r, id);
  }

  /** The filter removes exactly the items carrying `id`: one position per occurrence. */
  lemma {:induction false} WithoutLength(items: seq<Item>, id: int)
    ensures |Without(items, id)| == |items| - CountId(items, id)
  {
    if items != [] {
      WithoutLength(items[1..], id);
    }
  }

  /** How many items carry `id`. */
  function CountId(items: seq<Item>, id: int): (n: nat)
    ensures n <= |items|
  {
    if items == [] then 0
    else (if items[0].id == id then 1 else 0) + CountId(items[1..], id)
  }

  // ---------------------------------------------------------------------------
  // Properties of updateItem
  // ---------------------------------------------------------------------------

  /** An update whose id no item carries leaves the sequence unchanged. */
  lemma UpdateAbsent(items: seq<Item>, item: Item)
    requires forall j :: 0 <= j < |items| ==> items[j].id != item.id
    ensures UpdatedById(items, item) == items
  {
  }

  /** Only the first item carrying the payload's id is replaced; every other position keeps its item. */
  lemma UpdateReplacesFirstMatch(items: seq<Item>, item: Item, k: nat)
    requires k < |items| && items[k].id == item.id
    requires forall j :: 0 <= j < k ==> items[j].id != item.id
    ensures UpdatedById(items, item)[k] == item
    ensures forall j :: 0 <= j < |items| && j != k ==> UpdatedById(items, item)[j] == items[j]
  {
  }

  // ---------------------------------------------------------------------------
  // The slice state and its reducers
  // ---------------------------------------------------------------------------

  /** ItemState, updated in place by the reducers (Immer's draft semantics: the
      visible before/after state). */
  class ItemStore {
    var items: seq<Item>
    var isLoading: bool
    var error: Option<string>

    /** initialState: no items, not loading, no error. */
    constructor ()
      ensures items == [] && !isLoading && error == None
    {
      items := [];
      isLoading := false;
      error := None;
    }

    /** addItem: appends the payload. */
    method AddItem(item: Item)
      modifies this
      ensures items == old(items) + [item]
      ensures isLoading == old(isLoading) && error == old(error)
    {
      items := items + [item];
    }

    /** deleteItem: drops every item carrying `id`. */
    method DeleteItem(id: int)
      modifies this
      ensures items == Without(old(items), id)
      ensures isLoading == old(isLoading) && error == old(error)
    {
      items := Without(items, id);
    }

    /** updateItem: replaces the first item whose id is the payload's; silent no-op when none is. */
    method UpdateItem(item: Item)
      modifies this
      ensures items == UpdatedById(old(items), item)
      ensures isLoading == old(isLoading) && error == old(error)
    {
      var index := FindIndex(items, item.id);
      if index != -1 {
        items := items[index := item];
      }
    }

    /** setItems: wholesale replacement of the sequence. */
    method SetItems(payload: seq<Item>)
      modifies this
      ensures items == payload
      ensures isLoading == old(isLoading) && error == old(error)
    {
      items := payload;
    }

    /** getTasksFromServer.pending */
    method FetchPending()
      modifies this
      ensures isLoading
      ensures items == old(items) && error == old(error)
    {
      isLoading := true;
    }

    /** getTasksFromServer.fulfilled */
    method FetchFulfilled(payload: seq<Item>)
      modifies this
      ensures !isLoading && items == payload && error == None
    {
      isLoading := false;
      items := payload;
      error := None;
    }

    /** getTasksFromServer.rejected; the payload is None when the thunk threw instead of rejecting. */
    method FetchRejected(payload: Option<string>)
      modifies this
      ensures !isLoading && error == payload
      ensures items == old(items)
    {
      isLoading := false;
      error := payload;
    }

    /** One dispatch of getTasksFromServer that settles before any other action:
        pending, then fulfilled with the body of an OK response, or rejected with the
        fixed message on a non-OK response, or with no value when the request threw. */
    method GetTasksFromServer(response: Response)
      modifies this
      ensures !isLoading
      ensures response.Received? && response.ok ==> items == response.body && error == None
      ensures response.Received? && !response.ok ==>
        items == old(items) && error == Some(FetchFailedMessage)
      ensures response.NetworkFailure? ==> items == old(items) && error == None
    {
      FetchPending();
      match response
      case Received(ok, body) =>
        if ok {
          FetchFulfilled(body);
        } else {
          FetchRejected(Some(FetchFailedMessage));
        }
      case NetworkFailure =>
        FetchRejected(None);
    }
  }
}
