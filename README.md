# To-do and short-URL services, modelled in Dafny

The repository holds two small HTTP services, each backed by one table.

- **To-do service** (`Todo`, todo.dfy). The `todo_items` table maps an
  auto-increment id to an item's title, optional description and completion
  flag. `Todo.TodoStore` holds the table as a `map<int, TodoItem>` together
  with the table's AUTOINCREMENT sequence value `lastId`. A ghost set
  `issued` records every id ever assigned. The handlers are:
  - `CreateItem` assigns `lastId + 1`;
  - `GetItem` and `GetAllItems` read;
  - `UpdateItem` merges a patch of optional fields into the stored row;
  - `DeleteItem` removes a row.

  `Merge` is the partial-update rule. `Scan` is the ascending rowid walk
  behind the unordered `SELECT`.
- **Short-URL service** (`ShortUrl`, shorturl.dfy). The `short_urls` table
  maps 8-character ids over `[a-zA-Z0-9]` to full URLs.
  `ShortUrl.ShortUrlStore` holds it as a `map<string, string>`. `ShortenUrl`
  checks the `http://` / `https://` prefix, then runs the retry loop: draw an
  id, stop at the first one not yet in the table, insert.
  `RedirectToUrl` and `GetUrlStats` look an id up. `GenerateShortId` is the
  generator, with its random choices passed in as draws. Each draw is the
  index of the chosen symbol in `ALPHABET`, which is `ascii_letters + digits`.
- `Common` (common.dfy) holds the optional-field type and the error
  taxonomy. `InvalidInput` is HTTP 400, `NotFound` is HTTP 404 and
  `ServerError` is an unhandled storage exception. `InvalidInput` and
  `NotFound` carry the detail message sent to the client. For `ServerError`
  the client sees only a generic 500.

Stateful handlers are class methods. Their `ensures` give the whole new
table in terms of the old one. Read-only handlers are functions with
`reads this`. The `Scenario…` methods are worked examples of the two
services. Their assertions follow from the handlers' contracts and the
definitions of the request and response records. The listing example uses
only the contract of `GetAllItems`, through `ListingDetermined`. Among them:
"Buy milk" gets id 1 and the next item gets id 2; `Delete(999)` is
NotFound; after creating 1, 2, 3 and deleting 2 the listing is [1, 3];
`ftp://` URLs are rejected.

The listing handler issues an unordered `SELECT`, which walks the rowid
index. The model lists items in ascending id order, which with AUTOINCREMENT
ids is also insertion order.

## Model

| member | source | states |
|---|---|---|
| `Todo.FromTitle` | todo_app/main.py:15-18 | a create request with only a title gets no description and is not completed |
| `Todo.Merge` | todo_app/main.py:137-139 | each of title, description and completed takes the patch's value when the patch carries one and keeps the stored value when it does not; a field that differs from the stored value must have come from a non-null patch field |
| `Todo.MergeNoChange` | todo_app/main.py:137-139 | an all-null patch leaves the item unchanged |
| `Todo.MergeIdempotent` | todo_app/main.py:137-139 | applying the same patch twice is the same as applying it once |
| `Todo.MergeKeepsDescription` | todo_app/main.py:138 | a stored description can never be cleared to null by an update |
| `Todo.MergeThen` | todo_app/main.py:137-145 | two successive updates equal one update in which the later value of each field wins |
| `Todo.Scan` | todo_app/main.py:81-93 | a rowid scan of [lo, hi) yields at most one row per id of the range |
| `Todo.ScanBounds` | todo_app/main.py:81-82 | a rowid scan of [lo, hi) yields only ids in that range |
| `Todo.ScanAscending` | todo_app/main.py:81-82 | a rowid scan yields strictly ascending ids, so no row appears twice |
| `Todo.ScanSound` | todo_app/main.py:81-93 | every entry of a scan is the stored row under its id |
| `Todo.ScanComplete` | todo_app/main.py:81-82 | every stored id in the scanned range appears in the scan |
| `Todo.ListingDetermined` | todo_app/main.py:81-93 | two lists that are both in strictly ascending id order and both hold exactly the stored rows are equal, so the listing contract fixes the response |
| `Todo.TodoStore.constructor` | todo_app/main.py:35-47 | on first start the table is empty with no id assigned |
| `Todo.TodoStore.GetItem` | todo_app/main.py:96-116 | present id: the stored row with that id; absent id: NotFound("Item not found") |
| `Todo.TodoStore.GetAllItems` | todo_app/main.py:76-93 | every stored row exactly once, as stored, in strictly ascending id order, and nothing else |
| `Todo.TodoStore.AllListed` | todo_app/main.py:40 | with ids kept in [1, lastId], the scan of that range covers every stored row |
| `Todo.TodoStore.CreateItem` | todo_app/main.py:55-73 | the new id is lastId + 1: not in use, greater than every id ever assigned; only that key is added, holding the request's fields; the returned item equals what GetItem now returns; when the 64-bit id space is exhausted the insert fails and nothing changes |
| `Todo.TodoStore.UpdateItem` | todo_app/main.py:119-153 | absent id: NotFound and the table unchanged; present id: only that row changes, to the merge of its old fields with the patch, and the result echoes it with the same id; an all-null patch changes nothing; the id counter is untouched |
| `Todo.TodoStore.DeleteItem` | todo_app/main.py:156-170 | succeeds exactly when the id was present, then removes exactly that key; otherwise NotFound with the table unchanged; the id is never issued again and GetItem now fails |
| `ShortUrl.AlphabetAt` | shorturl_app/main.py:36 | the alphabet has 62 symbols: lower-case letters, then upper-case letters, then digits |
| `ShortUrl.AlphabetIndex` | shorturl_app/main.py:36 | every letter and digit occurs in the alphabet |
| `ShortUrl.AlphabetDistinct` | shorturl_app/main.py:36 | no symbol occurs twice in the alphabet |
| `ShortUrl.GenerateShortId` | shorturl_app/main.py:34-37 | a generated id has length 8, every character a letter or digit, and character k is the alphabet symbol chosen by draw k |
| `ShortUrl.GenerateShortIdInjective` | shorturl_app/main.py:34-37 | distinct drawings give distinct ids, so each of the 62^8 ids has a single drawing |
| `ShortUrl.EveryShortIdGenerated` | shorturl_app/main.py:34-37 | every 8-character alphanumeric string is a possible generated id |
| `ShortUrl.HasAllowedScheme` | shorturl_app/main.py:63-64 | a URL passes exactly when it starts with `http://` or with `https://`; a passing URL has at least 7 characters and starts with `http` |
| `ShortUrl.SchemeExamples` | shorturl_app/main.py:63-64 | the scheme check rejects `ftp://…`, upper-case `HTTP://…` and `http:/…`, and accepts `http://…`, `https://…` and the bare `http://` |
| `ShortUrl.Lookup` | shorturl_app/main.py:95-100 | a present id yields its URL; an absent id yields NotFound("Short URL not found") |
| `ShortUrl.ExtensionTransitive` | shorturl_app/main.py:77-79 | a run of inserts keeps every earlier entry unchanged |
| `ShortUrl.LookupStable` | shorturl_app/main.py:77-79 | once an id resolves, it resolves to the same URL in every later table |
| `ShortUrl.ShortUrlStore.constructor` | shorturl_app/main.py:41-51 | on first start the table is empty |
| `ShortUrl.ShortUrlStore.ShortenUrl` | shorturl_app/main.py:59-87 | a URL without an `http://` or `https://` prefix is rejected with InvalidInput and the table is unchanged; otherwise the id is the first drawn candidate not already a key, it is a well-formed short id, the table gains exactly that one entry mapping it to the URL, short_url is "/" + id, and stats and redirect for that id now return the submitted URL; no existing entry changes |
| `ShortUrl.ShortUrlStore.RedirectToUrl` | shorturl_app/main.py:90-102 | present id: a 302 response whose target is the stored URL; absent id: NotFound |
| `ShortUrl.ShortUrlStore.GetUrlStats` | shorturl_app/main.py:105-117 | present id: the id with its stored URL; absent id: NotFound |

## Left out

- HTTP routing, status codes and the framework's exception mechanics. Errors
  are `Result` values, and a redirect is the `RedirectResponse` record.
- Request parsing and validation (HTTP 422) and JSON serialisation belong to
  the framework. Request bodies are datatypes with `Option` fields and their
  declared defaults (`FromTitle` gives a title-only create request).
- Opening and closing connections, cursors, commits, and table creation at
  startup are the storage driver's work. Each table is a map held in a class.
- Creating the database directory is filesystem I/O.
- The check-then-insert race between concurrent shorten requests, and the
  gap between the read and the write in an update. The model is sequential.
- The quality of the random source. The draws are an input.
- ShortUrl.ShortUrlStore.ShortenUrl: requires that, when the URL passes the
  scheme check, some drawn candidate is unused. The unbounded retry loop at
  shorturl_app/main.py:70-74 is not modelled. That loop stops with
  probability 1 only while an unused id remains. Once all 62^8 ids are taken
  it never stops, and this requirement rules out exactly that input.
- Todo.TodoStore.GetItem: a path id outside the signed 64-bit range makes the
  storage driver raise OverflowError, a 500. The model answers NotFound,
  because no stored id lies outside that range.
- Todo.TodoStore.UpdateItem: a path id outside the signed 64-bit range makes
  the storage driver raise OverflowError, a 500. The model answers NotFound.
- Todo.TodoStore.DeleteItem: a path id outside the signed 64-bit range makes
  the storage driver raise OverflowError, a 500. The model answers NotFound.
- ShortUrl.ShortUrlStore.RedirectToUrl: the response's `url` is the stored
  URL. The framework writes a percent-quoted form of it into the Location
  header, and that quoting is not modelled.
- Todo.TodoStore.CreateItem: the storage layer may also fail for reasons
  outside the code, such as a full disk. Only the exhausted id space is
  modelled.
