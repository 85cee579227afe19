# Guest-book list: state and pagination

This project models the guest list of a wedding guest-book web page
(`src/components/GuestList.tsx`). The component reads all entries once from
the guest-book API. It keeps four pieces of state: the entries (`guests`),
the current page (`currentPage`), a `loading` flag and an `error` message.
It changes that state in three ways:

- the read settles, with an array, a non-array payload, or a thrown error;
- a newly submitted guest is prepended (`addGuest`);
- a page button is clicked (`handlePageChange`).

On every render it derives the page count `ceil(|guests| / 5)` and the slice
of the current page. It then shows exactly one of three views, in this
order of priority: the spinner, the error text, or the loaded list.

Files:

- `JsArray.dfy` models JavaScript's `Array.prototype.slice`, following
  section 23.1.3.28 of ECMAScript 2023. The start and end indices are
  resolved against the length: a negative index counts back from the end,
  and any index is clamped to the length.
- `Pagination.dfy` holds the pure values derived on each render (page count,
  current slice, button labels) and the lemmas about them. Pagination
  partitions the list. Every offered page is non-empty. The last page holds
  the remainder. Each entry sits on page `i / 5 + 1`.
- `GuestList.dfy` holds the component as a class. Its fields are the four
  state variables. It has one method per state change, a `Render` function
  that picks the view, and a `Valid` invariant. `Valid` says that the page is
  at least 1, that it stays 1 and no error is set while loading, and that a
  page other than 1 is one the buttons offer. It also says that the list
  stays empty until the fetch settles.

The network read is a parameter: a `FetchOutcome` value, which is either
`Fetched(entries)`, `NonArray` or `Failed`.

Two facts about the component shape the model:

- A non-array payload or a failed read sets the error and leaves `guests`
  unchanged, so it stays empty.
- The list's `Guest` record has only `name` and `message`
  (src/components/GuestList.tsx:5-8).

## Model

| member | source | states |
|---|---|---|
| `JsArray.Slice` | src/components/GuestList.tsx:59 | `slice(start, end)` returns a contiguous run of the list that starts at the resolved start. Its length is the resolved end minus the resolved start, or 0 when the resolved end is not past the resolved start. It is never longer than `end - start`. For `0 <= start <= end` it is `s[min(start,len)..min(end,len)]`. A start at or past the length gives `[]`. |
| `Pagination.TotalPages` | src/components/GuestList.tsx:49 | The page count is the least `k` with `5k >= n`, and it is 0 exactly when the list is empty. |
| `Pagination.CurrentGuests` | src/components/GuestList.tsx:57-59 | For any page number, the slice of the current page holds at most 5 entries. For `p >= 1` it is exactly `guests[(p-1)*5 .. min(p*5, len)]`. |
| `Pagination.PageButtons` | src/components/GuestList.tsx:90-96 | There is one button per page. The labels are exactly `1..totalPages`, in increasing order. |
| `Pagination.PageLength` | src/components/GuestList.tsx:49-59 | Every page before the last holds 5 entries. The last page holds `len - 5*(totalPages-1)`. Any page past the last is empty. |
| `Pagination.PageNonEmpty` | src/components/GuestList.tsx:49-59 | Every page from 1 to `totalPages` shows at least one entry. |
| `Pagination.TwelveEntries` | src/components/GuestList.tsx:49-59 | Twelve entries make three pages, and page 3 shows `s[10..12]`: two entries, the 11th and the 12th. |
| `Pagination.PageOf` | src/components/GuestList.tsx:57-59 | Entry `i` appears on the offered page `i/5 + 1`, at position `i % 5`. |
| `Pagination.TotalPagesMonotone` | src/components/GuestList.tsx:49 | A longer list never has fewer pages. |
| `Pagination.FirstPagesShape` | src/components/GuestList.tsx:90-93 | The list of the first `k` pages holds exactly the slices for pages `1..k`, in button order. |
| `Pagination.FlattenFirstPages` | src/components/GuestList.tsx:57-59 | Joining pages `1..k` in order gives the first `min(5k, len)` entries. |
| `Pagination.PagesPartition` | src/components/GuestList.tsx:49-59 | There are `totalPages` pages, each holding 1 to 5 entries. Joined in order they give back `guests` exactly, with nothing lost, repeated or reordered. |
| `GuestList.Component.constructor` | src/components/GuestList.tsx:11-14 | The initial state: no entries, `loading`, no error, page 1. |
| `GuestList.Component.Render` | src/components/GuestList.tsx:61-99 | There are three mutually exclusive views, checked in order. The spinner shows exactly when loading. The error text shows exactly when not loading and the error is truthy, and it is that error. The loaded view shows otherwise, with the current page's slice (at most 5 entries) and the buttons labelled `1..totalPages`. Under `Valid`, a loaded view of a non-empty list shows at least one entry. |
| `GuestList.Component.SettleFetch` | src/components/GuestList.tsx:19-38 | Loading ends in all three cases and the page is unchanged. An array becomes `guests` and the error stays null. A non-array payload sets "Invalid data format received from the API." and a thrown error sets "Failed to fetch guests."; in both, `guests` is left as it was and is therefore empty. The loaded view follows exactly when the payload was an array, and it shows page 1 of it. `Valid` is preserved. |
| `GuestList.Component.AddGuest` | src/components/GuestList.tsx:44-46 | The list grows by one: its head is the new guest and its tail is the old list. The page, `loading` and `error` are unchanged. It is called only from the loaded view. The page count never drops, so the view stays loaded with at least as many buttons, and the current page stays valid. On page 1 the new guest is shown first. |
| `GuestList.Component.HandlePageChange` | src/components/GuestList.tsx:52-54 | The page becomes `n` and nothing else changes. `n` must be one of the labels of the rendered buttons. The result is a loaded view that shows a non-empty page. |

## Left out

- `src/components/GuestForm.tsx` (the POST request, toasts and field resets)
  and `src/App.tsx` (static layout) are not part of this model. `addGuest` is
  modelled as called with whatever record the form passes.
- The HTTP call and the `VITE_BASE_URL` configuration are not modelled. The
  result of the read is the `FetchOutcome` parameter. The thrown error
  object is only logged, so it is not carried.
- The elements of the fetched array are not checked by the source. The model
  takes them to be `Guest` records.
- The React lifecycle is not modelled: the `useEffect` mount timing,
  asynchronous setter batching, and overlapping submissions. The fetch runs
  once, while loading (`SettleFetch` requires `loading`). `AddGuest` and
  `HandlePageChange` require the loaded view, because the form and the
  buttons are mounted only there.
- `currentPage` is a JavaScript number, but the model uses an integer. The
  buttons only ever pass the integers `1..totalPages`.
- JSX markup, CSS classes, the spinner, keys and `console` logging are not
  modelled.
