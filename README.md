# Car-rental mock server: the `/api/cars` handlers

This project models the request handlers of a small mock REST server that keeps a
collection of cars in a JSON file and serves list, get, create, update and delete
requests over it. Each request is one atomic step: load the file, compute, save the
file if the route writes, respond.

- `Json` (json.dfy): JSON values; a record is a map from field names to values.
- `Wrappers` (wrappers.dfy): `Option`. It stands for an absent query parameter, a
  `parseInt` that gave `NaN`, and a lookup that found nothing.
- `Pagination` (pagination.dfy): the listing computation.
  - `OrDefault` is the `parseInt(x) || default` rule.
  - `SliceIndex` and `Slice` are `Array.prototype.slice`, with its handling of negative and
    too-large indices.
  - `CeilDiv` is `Math.ceil(n / d)` on integers.
  - `Paginate` gives the page and its metadata. Lemmas about it cover in-range pages, the
    metadata, the defaults, negative pages and limits, and walking all pages.
- `Records` (records.dfy): the collection operations.
  - `HasId` is strict equality on the `id` field.
  - `FindIndex` is `findIndex` and `Find` is `find`; both take the first match.
  - `Without` is the `filter` of a delete, which removes every match.
  - `Merge` is the object spread of an update and `WithId` is the id assignment of a create.
  - Lemmas relate requests made one after another, without assuming that ids are unique.
- `CarsApi` (cars_api.dfy): the class `CarsStore`, whose state is the data file.
  - `contents` holds the parsed records; `readable` says whether the file can be read and parsed.
  - `Load` is `readData`. It gives the stored records, or `[]` when the file cannot be read.
  - `Save` is `writeData`. Its `WriteOutcome` parameter says how the write on disk ended, and a failure is not reported.
    `writeFileSync` opens the file with flag `w`, which truncates it, so there are three outcomes:
    `Written` (the file holds the data), `NotOpened` (the open failed and nothing changed) and
    `Truncated` (the write failed after the open, leaving an empty or partial file that the next
    read cannot parse, so it gives `[]`). `AfterWrite` gives what a later read sees in each case.
  - There is one method per route. `Update` and `Delete` also return `wrote`, which says whether the route called `writeData`.
  - `CreateThenList` is a client. It runs a create on an empty collection, then a default listing, then a get.

Four behaviours of the server are easy to miss; the model follows the code:

- Only the `cars` routes exist.
- `parseInt(x) || d` replaces a zero as well as a missing or non-numeric value. Negative
  values pass through. A negative page makes `slice` count both indices from the end of the
  collection (`NegativePageCountsFromEnd`); a negative limit on the first page drops that
  many records from the end and gives a `totalPages` of 0 or less (`NegativeLimitDropsFromEnd`).
- Nothing enforces unique ids:
  - create and get use the first match, so a created record can be shadowed by an
    earlier record with the same id (`GetAfterCreateShadowed`);
  - update touches only the first match;
  - delete removes every match.
- An update whose body carries another `id` renames the record (`GetAfterUpdateRenamed`).

## Model

| member | source | states |
|---|---|---|
| `Pagination.OrDefault` | mockServer.js:45-46 | a parsed value is kept exactly when it is a nonzero number; `None` (missing or `NaN`) and 0 give the default; the result is never 0 when the default is not |
| `Pagination.SliceIndex` | mockServer.js:53 | `slice`'s index normalisation: the result is at most the length; a non-negative index becomes min(i, len), a negative one counts from the end and stops at 0, max(len + i, 0) |
| `Pagination.Slice` | mockServer.js:53 | the result starts at the normalised start index (a negative index counts from the end, clipped at 0; any index clipped at the length), holds the elements from there on in order, and is as long as the normalised end minus the normalised start, or empty |
| `Pagination.CeilDiv` | mockServer.js:58 | the result is the ceiling of n / d: for d > 0, (q-1)*d < n <= q*d; for d < 0, q*d <= n < (q-1)*d |
| `Pagination.Paginate` | mockServer.js:41-61 | `totalItems` is the collection size; `currentPage` and `itemsPerPage` are the defaulted parameters and are never 0; the data is no longer than the collection; for every parsed input, including negative ones, the data is `Slice(items, (page-1)*limit, page*limit)` and `totalPages` is `CeilDiv(len, limit)` of the defaulted page and limit |
| `Pagination.PageInRange` | mockServer.js:49-53 | for page >= 1 and limit >= 1: 0 <= start <= end; the data is `items[min(start,len)..min(end,len)]`; it holds at most `limit` records, and none when start >= len |
| `Pagination.PageMetadata` | mockServer.js:56-61 | for limit >= 1: `totalPages` is the ceiling of len / limit, is non-negative, and is 0 exactly for an empty collection; `totalItems` = len and `itemsPerPage` = limit; apart from `currentPage` the metadata is the same for any requested page |
| `Pagination.PageNonEmptyIffInRange` | mockServer.js:49-61 | for page >= 1 and limit >= 1, a page has data exactly when page <= `totalPages` |
| `Pagination.PagesUpToArePrefix` | mockServer.js:49-53 | pages 1..n, concatenated, are exactly the first min(n*limit, len) records in order |
| `Pagination.AllPagesCoverCollection` | mockServer.js:49-58 | pages 1..`totalPages`, concatenated, are the whole collection: every record appears once, in order |
| `Pagination.DefaultListing` | mockServer.js:45-53 | with missing, non-numeric or zero parameters the listing is page 1 with limit 10: the first min(10, len) records |
| `Pagination.NegativePageCountsFromEnd` | mockServer.js:45-53 | a negative page with limit >= 1 gives negative start and end, and the data is `items[max(len+start,0)..max(len+end,0)]`, counted from the end |
| `Pagination.NegativeLimitDropsFromEnd` | mockServer.js:45-60 | on the first page with a negative limit, the data is `items[..max(len+limit, 0)]` and `totalPages` is -(len div -limit), never positive |
| `Records.HasId` | mockServer.js:73 | a record matches an id exactly when its `id` field is a string with the same characters; a record with no `id`, or a numeric or other non-string `id`, matches no id |
| `Records.FindIndex` | mockServer.js:98 | the result is -1 exactly when no record has the id; otherwise it is an index whose record has the id, and no earlier record has it |
| `Records.Find` | mockServer.js:73 | the result is `None` exactly when no record has the id; otherwise it is a record of the collection with that id |
| `Records.FindIsFirstMatch` | mockServer.js:73 | `find` returns the record at the index that `findIndex` returns, and `None` when that index is -1 |
| `Records.Without` | mockServer.js:115 | a record is in the result exactly when it is in the collection and does not have the id; the length is unchanged exactly when no record has the id, and then the result is the collection itself |
| `Records.WithoutConcat` | mockServer.js:115 | filtering a concatenation gives the concatenation of the filtered parts, so the kept records stay in their original order |
| `Records.WithoutSingle` | mockServer.js:115 | a single record is dropped exactly when it has the id |
| `Records.WithoutRemovesEveryMatch` | mockServer.js:115-116 | the filter removes exactly as many records as have the id |
| `Records.Merge` | mockServer.js:100 | the keys are those of both records; a body field wins, and a field absent from the body keeps the old value |
| `Records.WithId` | mockServer.js:85 | the result has the new id; its keys are the body's plus `id`; every other body field is kept |
| `Records.GetAfterCreate` | mockServer.js:84-86 | when no earlier record has the new id, a lookup in the grown collection finds the created record |
| `Records.GetAfterCreateShadowed` | mockServer.js:73-86 | when an earlier record already has the new id, the lookup after the create finds what it found before, and the created record is not found unless an equal record was already stored |
| `Records.GetAfterUpdate` | mockServer.js:98-100 | when the body leaves `id` alone or keeps the same id, a lookup after the update finds the merged record |
| `Records.GetAfterUpdateRenamed` | mockServer.js:98-100 | when the body sets a different `id`, a lookup after the update finds the first match after the updated index, if any |
| `Records.FindSkipsNonMatches` | mockServer.js:73 | when none of the first n records has the id, a lookup gives the same result as a lookup in the records after them |
| `Records.GetAfterDelete` | mockServer.js:115 | after the filter, a lookup of the deleted id finds nothing |
| `CarsApi.CarsStore.Load` | mockServer.js:21-29 | the stored records when the file reads and parses, otherwise [] |
| `CarsApi.CarsStore.Save` | mockServer.js:32-38 | after a good write the file is readable and holds exactly the data; a write that could not open the file changes nothing; a write that failed after truncating the file leaves it unreadable, so the next read gives [] |
| `CarsApi.CarsStore.List` | mockServer.js:41-67 | status 200, and the body is the `{pagination, data}` object of `Paginate` over the loaded collection; nothing is written |
| `CarsApi.CarsStore.Get` | mockServer.js:70-79 | status 200 with the record at the `findIndex` position when some record has the id; otherwise a 404 with `{message: "User not found"}`; nothing is written |
| `CarsApi.CarsStore.Create` | mockServer.js:82-92 | the response is 201 with the message and the body with its assigned id; after a good write the collection is the old one plus that record at the end; after a failed open the state is unchanged; after a truncated write the next read gives [] |
| `CarsApi.CarsStore.Update` | mockServer.js:95-109 | it writes exactly when some record has the id; then the response is 200 with the merged record and, after a good write, only the first matching index changes, to the merged record; after a failed open the state is unchanged and after a truncated write the next read gives []; with no match it returns a 404 and the state is unchanged |
| `CarsApi.CarsStore.Delete` | mockServer.js:112-122 | it writes exactly when some record has the id; then the response is 200 with the message and, after a good write, the collection is the filtered one; after a failed open the state is unchanged and after a truncated write the next read gives []; with no match it returns a 404 and the state is unchanged |

## Left out

- Express setup, routing, CORS and body parsing (mockServer.js:2-15). They are framework wiring, so each route is a method called with the already-extracted id, body and parsed query values.
- JSON (de)serialisation and the pretty-printed file format (mockServer.js:18-38). The file is modelled as its parsed records, plus whether it can be read. A file whose parsed value is not an array of objects is not modelled: for example an array of numbers (the listing serves them and every id route answers 404), a top-level string (the listing slices it), or a `null` element (delete always throws on `null.id`; get and update throw when the `null` comes before the first match; the listing does not).
- `parseInt`: each route takes the parsed value, `None` for `NaN` or a missing parameter. There are no strings to parse.
- `Date.now()` (mockServer.js:85) reads the clock. The generated id is a parameter of `Create`.
- Floating point. `Math.ceil` on a float quotient is replaced by integer ceiling division. JSON numbers are integers. Precision loss in `page * limit` above 2^53 is not modelled.
- Request bodies that are not objects (an array is accepted by the JSON body parser): bodies and records are objects.
- The order of keys in JSON objects, and so the field order of responses and stored records: maps are unordered.
- Console logging, `process.env.PORT` and `app.listen` (mockServer.js:26, 36, 124-128) are process I/O.
- `CarsApi.CarsStore.Save`: a good write is taken to make the file readable again. A file that cannot be read for a reason a write does not cure (for example one the process may write but not read) is not modelled.
- Concurrent requests racing on the shared file. Each request is modelled as one atomic load-compute-save step.
