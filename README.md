# Item list: slice reducers and form guards

A model of a small CRUD form over a list of person records ("items"). It covers two things:

- The **items slice** (`ItemSlice`). `ItemStore` is a class with the fields `items: seq<Item>`, `isLoading: bool` and `error: Option<string>`. It has one method per reducer:
  - the synchronous actions `addItem`, `deleteItem`, `updateItem` and `setItems`;
  - the `pending`, `fulfilled` and `rejected` transitions of the fetch-all request.
- The **ItemList component** (`ItemListComponent`). `ItemList` is a class holding the add draft, the editing id, the edit draft and the error message, plus the store it reads and dispatches to. It has the duplicate check `CheckForDuplicates`, the handlers `handleAdd`, `handleUpdate` and `handleDelete`, and the Edit and Cancel buttons.

Each reducer that rewrites the sequence is specified by a function on values: `FindIndex` (findIndex), `Without` (the filter behind deleteItem) and `UpdatedById` (updateItem). The lemmas beside these functions state what the reducers promise: order, no-ops, idempotence, and which positions change.

The component proves the invariant the form is meant to keep: no two items share a phone number or an email (`ContactsUnique`). The three handlers preserve it:
- `HandleAdd` always preserves it.
- `HandleDelete` always preserves it.
- `HandleUpdate` preserves it when ids are also unique. `UpdateNeedsUniqueIds` shows two rows that share an id and so break the invariant through an update. Ids come from `Date.now()` and from the server, and nothing enforces their uniqueness.

Points of behaviour that are easy to misread:
- `deleteItem` removes every item carrying the id. It is a filter, not a first-match removal.
- `updateItem` replaces only the first item carrying the id.
- The fetch thunk can throw: the network fails, or the body is not JSON. The rejected action then has no payload, and `error` becomes `undefined`. The model writes `None` for that case, which the UI treats the same as `null`.

## Model

| member | source | states |
|---|---|---|
| ItemSlice.FindIndex | src/Features/itemSlice.ts:51 | the result is -1 exactly when no item carries the id; otherwise it is the first position that does |
| ItemSlice.Without | src/Features/itemSlice.ts:48 | an item is in the result iff it is in the input and its id differs from the deleted id; the result is never longer |
| ItemSlice.UpdatedById | src/Features/itemSlice.ts:50-55 | an update keeps the length and the id at every position |
| ItemSlice.WithoutConcat | src/Features/itemSlice.ts:48 | deletion keeps the relative order of the rest: filtering a concatenation filters each part in place |
| ItemSlice.WithoutAbsent | src/Features/itemSlice.ts:47-49 | deleting an id no item carries leaves the sequence unchanged |
| ItemSlice.WithoutIdempotent | src/Features/itemSlice.ts:47-49 | deleting the same id twice equals deleting it once |
| ItemSlice.WithoutLength | src/Features/itemSlice.ts:48 | deletion removes every item carrying the id: the length drops by the number of occurrences |
| ItemSlice.UpdateAbsent | src/Features/itemSlice.ts:51-52 | an update whose id no item carries leaves the sequence unchanged |
| ItemSlice.UpdateReplacesFirstMatch | src/Features/itemSlice.ts:51-53 | the first item carrying the id becomes the payload and every other position keeps its item |
| ItemSlice.ItemStore.constructor | src/Features/itemSlice.ts:20-24 | the initial state has no items, isLoading false and no error |
| ItemSlice.ItemStore.AddItem | src/Features/itemSlice.ts:44-46 | the payload is appended at the end and every earlier item keeps its position; flags untouched |
| ItemSlice.ItemStore.DeleteItem | src/Features/itemSlice.ts:47-49 | items become the filter of the old items; flags untouched |
| ItemSlice.ItemStore.UpdateItem | src/Features/itemSlice.ts:50-55 | items become UpdatedById of the old items; flags untouched |
| ItemSlice.ItemStore.SetItems | src/Features/itemSlice.ts:56-58 | items become the payload; isLoading and error untouched |
| ItemSlice.ItemStore.FetchPending | src/Features/itemSlice.ts:62-64 | isLoading becomes true; items and error untouched |
| ItemSlice.ItemStore.FetchFulfilled | src/Features/itemSlice.ts:65-69 | isLoading false, items the payload, error none |
| ItemSlice.ItemStore.FetchRejected | src/Features/itemSlice.ts:70-73 | isLoading false, error the payload, items untouched |
| ItemSlice.ItemStore.GetTasksFromServer | src/Features/itemSlice.ts:29-36 | one settled fetch leaves isLoading false. An OK response replaces the items and clears the error. A non-OK response keeps the items and sets the error to exactly "Failed to fetch data from the server" |
| ItemListComponent.CheckForDuplicates | src/Components/itemList.tsx:49-53 | true iff some item shares the phone number or the email and is not the excluded row; with no row excluded, every matching item counts |
| ItemListComponent.Clashes | src/Components/itemList.tsx:51 | the `some` callback: the excluded row never clashes; with nothing excluded, an item clashes iff it shares the phone number or the email |
| ItemListComponent.RequiredFieldsPresent | src/Components/itemList.tsx:56 | the add guard (name, email, job role non-empty, phone non-zero, age positive); the all-empty reset form never passes it |
| ItemListComponent.ToItem | src/Components/itemList.tsx:60 | the dispatched record carries the given id, isLoading false and no error |
| ItemListComponent.DraftOf | src/Components/itemList.tsx:219 | the edit draft keeps the row's id |
| ItemListComponent.DraftOfToItem | src/Components/itemList.tsx:79 | dispatching a draft keeps every form field and overrides only the id |
| ItemListComponent.ToItemDraftOf | src/Components/itemList.tsx:219 | saving an unedited row under its own id gives back the row with its flags cleared |
| ItemListComponent.DuplicateCheckExample | src/Components/itemList.tsx:49-53 | against an item with phone 1 and email "a", phone 1 with email "b" is blocked and phone 2 with email "b" passes |
| ItemListComponent.ExcludeRowIsWithout | src/Components/itemList.tsx:76 | checking with the row's id excluded equals checking, with nothing excluded, against the items without that id, so the row's own contacts never block its save |
| ItemListComponent.AddKeepsContactsUnique | src/Components/itemList.tsx:57-60 | appending an item that passes the duplicate check keeps phone numbers and emails unique |
| ItemListComponent.UpdateKeepsContactsUnique | src/Components/itemList.tsx:76-79 | with unique ids, an update that passes the check with its own row excluded keeps contacts unique |
| ItemListComponent.UpdateNeedsUniqueIds | src/Components/itemList.tsx:76-79 | without unique ids, an update that passes the check can break contact uniqueness |
| ItemListComponent.DeleteKeepsContactsUnique | src/Components/itemList.tsx:87-89 | deletion keeps contacts unique |
| ItemListComponent.DeleteKeepsIdsUnique | src/Components/itemList.tsx:87-89 | deletion keeps ids unique |
| ItemListComponent.ItemList.constructor | src/Components/itemList.tsx:20-31 | the form starts with the empty draft, no editing id, no edit draft and no error message |
| ItemListComponent.ItemList.HandleAdd | src/Components/itemList.tsx:55-72 | the handler does nothing unless name, email, job role are non-empty, phone non-zero and age positive. On a duplicate it sets the message and changes neither the store nor the draft. Otherwise it appends the draft with id `now` and cleared flags, resets the draft and clears the message. It keeps contacts unique, and keeps ids unique when `now` is fresh |
| ItemListComponent.ItemList.HandleUpdate | src/Components/itemList.tsx:74-85 | with no edit draft, nothing happens. On a duplicate, with the row's id excluded, it sets the message and dispatches nothing. Otherwise it updates with the id forced to the row id and clears the editing id, the edit draft and the message. It keeps ids unique, and keeps contacts unique when ids are unique |
| ItemListComponent.ItemList.HandleDelete | src/Components/itemList.tsx:87-89 | always dispatches deleteItem; keeps both uniqueness invariants |
| ItemListComponent.ItemList.StartEdit | src/Components/itemList.tsx:219 | the row becomes the edit draft and its id the editing id; the add draft, the message and the store's items do not change |
| ItemListComponent.ItemList.CancelEdit | src/Components/itemList.tsx:208 | only the editing id is cleared; the edit draft stays and the store's items are unchanged, since nothing is dispatched |

## Left out

- The HTTP request and JSON decoding in the fetch thunk are I/O. The response comes in as a parameter: an OK response with its decoded array, a non-OK response, or a thrown error.
- Overlapping fetches and the order of asynchronous continuations are concurrency. `GetTasksFromServer` models one fetch that settles before any other action.
- `src/app/store.ts` is only store wiring, with no logic of its own.
- JSX rendering, CSS, and the fetch dispatched on mount are UI and framework plumbing.
- `handleInputChange` and `handleEditInputChange` copy raw input strings into the drafts. At run time this can put strings into the numeric fields. The model keeps the fields at their declared kinds (text or number), so `===` in the duplicate check compares like with like.
- JavaScript `number` (`id`, `age`, `phoneNumber`) is modelled as unbounded `int`. NaN, fractions, ±0 and precision loss above 2^53 are not modelled, including in `CheckForDuplicates` and `Clashes`, where a NaN phone number would never match.
- Immer's copy-on-write drafts are not modelled; the reducers update the fields in place and only the before/after state is visible.
- `Date.now()` becomes the `now` parameter of `HandleAdd`.
- The edit draft holds only the component's six declared fields. At run time it also carries the row's `isLoading` and `error`, but `handleUpdate` overwrites both, so nothing observable is lost.
- ItemListComponent.RequiredFieldsPresent: does not model NaN being falsy or a fractional age passing `age > 0`, because numeric fields are integers here.
