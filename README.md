# Open Library tool server — a verified model of its core

`mcp-open-library` is a tool server that answers five tools: `search_books`,
`get_book`, `search_authors`, `get_author_works` and `get_trending`. Each one
sends a single GET request to the Open Library HTTP API and returns a reduced
copy of the answer. This project models the parts of `src/index.ts` that hold
logic:

- **The pacing gate of `olFetch`** (`fetcher.dfy`). The class `Fetcher.Pacer`
  holds the module-level timestamp `last`. `Dispatch` takes two clock
  readings: `now`, taken before the pause, and `later`, taken after it. It
  computes the pause and sets `last` before the request goes out. A ghost
  history records every dispatch time and URL. `Paced()` says that
  consecutive dispatches start at least 200 ms apart. The first dispatch is
  measured from the initial `last = 0`. `CheckResponse` is the tail of
  `olFetch`: a rejected `fetch` (no answer at all), the status check, and
  the decoding of the body.
- **Argument schemas** (`schema.dfy`). These are validators for the
  declared schemas: limit bounds and defaults, the `sort` and `type`
  enumerations, and required strings. Each validator returns the typed,
  defaulted arguments, or the names of the arguments that fail.
- **Request URLs** (`urls.dfy`). `get_book` chooses between a key path and
  `/isbn/{key}`. `search_books` builds `URLSearchParams`, including the
  semantics of `set`, and serialises them as a form. The other three tools
  interpolate their paths.
- **Response projections** (`projections.dfy`), written over a JSON value
  that includes `undefined` (`js.dfy`). They cover `?.` chains, `?.[0]`,
  `?.slice(0, 5)`, `?.join(", ")`, `?.map(...)` and the cover-URL rule.
- **The five handlers** (`tools.dfy`). Each validates, builds the URL,
  fetches through the gate and reshapes the answer. An argument error stops
  the call before any request is made.

Several properties are proved:

- The pause is 0 exactly when 200 ms have passed. Otherwise it lasts until
  `last + 200`.
- Under a monotone clock, a pause that lasts at least as long as asked keeps
  every dispatch at least 200 ms after the previous one. This holds over any
  sequential run.
- A failed status becomes a `RemoteError`, and the status can be read back
  from its message.
- The `get_book` URL follows its two cases exactly. Two keys of the same kind
  never share a URL. The key `/isbn/X` and the bare ISBN `X` fetch the same
  document.
- `sort` is sent if and only if it is given.
- The form-encoded query string reads back into its pairs.
- The query strings of the other three URLs read back as exactly their
  pairs: `q` and `limit` for `search_authors`, `limit` alone for the other
  two. A `get_author_works` or `get_trending` URL string determines its
  arguments; a `search_authors` one determines the limit and the encoded
  query. These are statements about the string
  handed to `fetch`; its URL parser then drops tabs and newlines, resolves
  dot segments and cuts at `#`, so an author key such as `OL1A#x` sends a
  request without its `limit`.
- Argument errors name exactly the failing arguments, in declaration order.
- A successful projection has a list exactly when the input has an array
  there, with one record per input record, in order. The list is absent,
  not an error, when the input has none.
- Subjects are the first five, or all of them when there are fewer. `isbn`
  is the first one.
- The cover URL is a URL exactly when `cover_i` is truthy. For a number, the
  id can be read back from the URL. `search_books` and `get_trending` derive
  the same URL from the same record. A truthy `cover_i` that is not a number
  still gives a URL: an empty array gives
  `https://covers.openlibrary.org/b/id/-M.jpg`, which names no image. The
  model reproduces this, as `Projections.CoverUrlOfEmptyArray` shows.

Under concurrent calls, `last` is read before the pause and written after
it, so the check-and-update of the pacing timestamp is not atomic. Two calls
that arrive within 200 ms of the previous dispatch both read the same stale
`last`, both sleep until about `last + 200`, and both dispatch at nearly the
same moment. The model follows the code and states spacing for sequential
dispatches only.

## Model

| member | source | states |
|---|---|---|
| `Fetcher.Wait` | src/index.ts:11 | the pause is 0 exactly when `now - last >= 200`; otherwise it ends at `last + 200`; it is never negative and at most 200 when `now >= last` |
| `Fetcher.WaitSuffices` | src/index.ts:11-12 | once the pause has lasted at least as long as asked, the second clock reading is at least `last + 200`, even when the call came early |
| `Fetcher.SpacedSpread` | src/index.ts:11-12 | in a run of dispatches that are each spaced 200 ms from the previous one, dispatches `k` apart are at least `200·k` ms apart |
| `Fetcher.Pacer.constructor` | src/index.ts:8 | `last` starts at 0 with no dispatch recorded, and the gate is valid and paced |
| `Fetcher.Pacer.Dispatch` | src/index.ts:11-12 | returns the pause `Wait(last, now)`; sets `last` to the second clock reading before the request; appends that time and the URL to the history; if the pause was honoured, start-to-start spacing is preserved |
| `Fetcher.Pacer.Fetch` | src/index.ts:10-15 | performs one dispatch through the gate (history and spacing as in `Dispatch`), even when no answer comes back, then returns exactly `CheckResponse` of the answer |
| `Fetcher.CheckResponse` | src/index.ts:13-15 | a document comes back if and only if there is an answer, its status is 200-299 and the body decodes; no answer at all is a `NetworkError`; a status outside 200-299 is a `RemoteError` with that status and message "Open Library {status}"; a bad body is a `DecodeError` |
| `Fetcher.StatusInMessage` | src/index.ts:14 | the status code can be read back from the error message alone |
| `Fetcher.NotFoundExample` | src/index.ts:14 | a 404 is a `RemoteError` with status 404 and message "Open Library 404", whatever the body |
| `Schema.SortName` | src/index.ts:22 | each sort order's name is accepted by the enumeration and parses back to that order |
| `Schema.ParseSort` | src/index.ts:22 | accepts exactly relevance, new, old, rating and editions |
| `Schema.ParseSortName` | src/index.ts:22 | every accepted sort string is the name of the order it parses to |
| `Schema.PeriodName` | src/index.ts:66 | each period's name is accepted and parses back to that period |
| `Schema.ParsePeriod` | src/index.ts:66 | accepts exactly daily, weekly, monthly and yearly |
| `Schema.StringArg` | src/index.ts:21 | a required string argument is accepted if and only if it is a string |
| `Schema.LimitArg` | src/index.ts:21 | a missing limit gives the default; a given one is accepted if and only if it is a number within the bounds, and is kept as given |
| `Schema.SortArg` | src/index.ts:22 | a missing sort is accepted as "none"; a given one is accepted if and only if it is a member of the enumeration |
| `Schema.PeriodArg` | src/index.ts:66 | a missing type is `daily`; a given one is accepted if and only if it is a member of the enumeration |
| `Schema.ParseSearchBooks` | src/index.ts:20-22 | accepted if and only if query is a string, limit is missing or in 1..100, and sort is missing or valid; limit defaults to 10; a sort is passed on if and only if one was given, and it is the order given; on failure, the list is non-empty, names only declared arguments, each at most once and in declaration order, and names an argument if and only if it fails |
| `Schema.ParseGetBook` | src/index.ts:35-36 | accepted if and only if key is a string |
| `Schema.ParseSearchAuthors` | src/index.ts:43-44 | accepted if and only if query is a string and limit is missing or in 1..100; limit defaults to 10; on failure, the list is non-empty, names only `query` and `limit`, in declaration order, and names an argument if and only if it fails |
| `Schema.ParseAuthorWorks` | src/index.ts:54-56 | accepted if and only if authorKey is a string and limit is missing or in 1..100; limit defaults to 20; on failure, the list is non-empty, names only `authorKey` and `limit`, in declaration order, and names an argument if and only if it fails |
| `Schema.ParseTrending` | src/index.ts:65-67 | accepted if and only if type is missing or a valid period and limit is missing or in 1..50; defaults are daily and 10; on failure, the list is non-empty, names only `type` and `limit`, in declaration order, and names an argument if and only if it fails |
| `Schema.SearchBooksLimitExamples` | src/index.ts:21 | limit 150 is refused and names only `limit`; a missing limit becomes 10 |
| `Schema.TrendingPeriodExamples` | src/index.ts:66 | type "hourly" is refused; no arguments give daily and 10 |
| `Urls.BookUrl` | src/index.ts:38-39 | a key starting with "/" fetches exactly `BASE + key + ".json"`; any other key fetches exactly `BASE + "/isbn/" + key + ".json"` |
| `Urls.BookUrlInjective` | src/index.ts:38-39 | two keys of the same kind (both paths, or both ISBNs) with the same URL are equal |
| `Urls.BookUrlIsbnAlias` | src/index.ts:38 | the key "/isbn/X" and the bare ISBN "X" fetch the same URL |
| `Urls.BookUrlExamples` | src/index.ts:36-39 | the example key `/works/OL45883W` gives `https://openlibrary.org/works/OL45883W.json`; a bare ISBN `9780140328721` gives `https://openlibrary.org/isbn/9780140328721.json` |
| `Urls.SetParam` | src/index.ts:25 | `URLSearchParams.set`: afterwards exactly one pair carries the name, with the new value; pairs with other names keep their order; on a list without that name, the pair is appended |
| `Urls.SearchBooksParams` | src/index.ts:24-25 | `q` and `limit` (as decimal text) always come first; `sort` is present, once and last, if and only if a sort was given |
| `Urls.FormEncode` | src/index.ts:26 | `${p}` of `URLSearchParams`: empty for no pairs, and otherwise starts with the first encoded `name=value` pair |
| `Urls.FormRoundTrip` | src/index.ts:24-26 | if the encoder escapes "&" and "=", the query string splits back into exactly the encoded pairs, in order |
| `Urls.SearchBooksUrl` | src/index.ts:24-26 | the URL string starts with `https://openlibrary.org/search.json?`; with an encoder that escapes "&" and "=", its query reads back as exactly `q`, `limit` and, if and only if a sort was given, `sort`, in that order |
| `Urls.SearchAuthorsUrl` | src/index.ts:46 | the URL string starts with `https://openlibrary.org/search/authors.json?`; when the encoded query holds no "&", as `encodeURIComponent` guarantees, the query string reads back as exactly `q` with the encoded query, then `limit` with the limit's decimal text; the limit reads back from the text after the last "=" |
| `Urls.AuthorWorksUrl` | src/index.ts:58 | the URL string starts with `https://openlibrary.org/authors/`, the author key unencoded and `/works.json?`; the query string after it reads back as exactly one pair, `limit` with the limit's decimal text; the limit reads back from the text after the last "=" |
| `Urls.TrendingUrl` | src/index.ts:69 | the URL string starts with `https://openlibrary.org/trending/`, the period's name and `.json?`; the query string after it reads back as exactly one pair, `limit` with the limit's decimal text; the limit reads back from the text after the last "=" |
| `Urls.SearchAuthorsUrlDetermines` | src/index.ts:46 | two `search_authors` URL strings are equal only when the limit and the encoded query are equal |
| `Urls.AuthorWorksUrlInjective` | src/index.ts:58 | distinct `get_author_works` arguments give distinct URL strings |
| `Urls.TrendingUrlInjective` | src/index.ts:69 | distinct `get_trending` arguments give distinct URL strings |
| `Js.Field` | src/index.ts:28-30 | reading a missing field of a present record yields `undefined`; a value other than `undefined` is the record's own field |
| `Js.Truthy` | src/index.ts:30 | the test of the cover ternary: `null`, `undefined`, 0 and "" are falsy; every array and object is truthy, the empty ones included |
| `Js.Join` | src/index.ts:28 | `join` on strings: empty for no parts, the part itself for one, starts with the first part, and its length is the parts' total plus one separator between each pair of neighbours |
| `Js.DisplayString` | src/index.ts:30 | `${v}` in the cover template, for a value that converts to a string (no own `toString` field on it or, for an array, on any element): a number renders as text from which it reads back, a string as itself, an empty array as "", a one-element array as that element |
| `Js.ElementString` | src/index.ts:28 | how `join` renders an element that converts to a string: `null` and `undefined` as "", a string as itself, a number as text from which it reads back |
| `Js.Decimal` | src/index.ts:24 | `String(n)` of an integer is non-empty, starts with "-" exactly for negatives, and is otherwise digits |
| `Js.DecimalRoundTrip` | src/index.ts:24 | the integer can be read back from its text |
| `Js.DecimalInjective` | src/index.ts:24 | distinct integers have distinct texts |
| `Js.OptionalFirst` | src/index.ts:29 | `?.[0]` is the first element, or the first character of a string; it is `undefined` for a missing or empty list |
| `Js.OptionalSlice` | src/index.ts:29 | `?.slice(0, n)` is a prefix of length `min(n, length)` of an array or string; it is `undefined` when nullish; it is a TypeError on anything else |
| `Js.OptionalJoin` | src/index.ts:28 | `?.join(sep)` is `undefined` when nullish, and a TypeError on a non-array or on an array with an element that does not convert to a string (an object with its own `toString` field); on an array of strings it is those strings joined by `sep` |
| `Js.MapAll` | src/index.ts:27 | `map` succeeds if and only if every element does; it then yields one result per element, in order; otherwise it yields the first element's error |
| `Js.OptionalMap` | src/index.ts:27 | `?.map` is absent on a nullish value, a TypeError on a non-array, and `MapAll` on an array |
| `Projections.CoverUrl` | src/index.ts:30 | a falsy `cover_i` gives `null`; a truthy one gives a URL string, except that the template fails with a TypeError exactly when the id does not convert to a string; a URL starts with the covers prefix and ends with "-M.jpg" |
| `Projections.CoverUrlOfNumber` | src/index.ts:30 | for a numeric id, cover id 0 gives `null`; any other id gives the prefix, its decimal text and "-M.jpg", and the id can be read back from that URL |
| `Projections.CoverUrlExample` | src/index.ts:30 | id 12345 gives `https://covers.openlibrary.org/b/id/12345-M.jpg` |
| `Projections.CoverUrlOfEmptyArray` | src/index.ts:30 | an empty-array `cover_i` is truthy and gives the prefix followed directly by "-M.jpg", from which no id reads back |
| `Projections.CoverUrlOfOwnToString` | src/index.ts:30 | an object `cover_i` with its own `toString` field makes the template throw a TypeError |
| `Projections.ProjectBook` | src/index.ts:27-31 | fails only on a nullish record, a non-array `author_name` or one with an element that does not convert to a string, a `subject` without `slice`, or a truthy `cover_i` that does not convert to a string; `author` is the names joined with ", " or absent; `isbn` is `?.[0]` of the field: the first ISBN of an array, the first character of a string, absent when missing or empty; `subjects` is the first 5 subjects, or all of them when there are fewer, and a string `subject` is cut to its first 5 characters the same way; `coverUrl` follows the cover rule |
| `Projections.ProjectAuthor` | src/index.ts:47-50 | never fails on a present record, whatever fields it lacks; copies exactly name, key, work_count, top_work and birth_date |
| `Projections.AuthorWithoutBirthDate` | src/index.ts:49 | a record without `birth_date` is reduced with `birthDate` absent, not refused |
| `Projections.ProjectWork` | src/index.ts:59-61 | never fails on a present entry; copies exactly title, key and first_publish_date |
| `Projections.ProjectTrendingBook` | src/index.ts:70-73 | fails only on a nullish record, a non-array `author_name` or one with an element that does not convert to a string, or a truthy `cover_i` that does not convert to a string; title and key are copied; `author` is the names joined with ", " or absent; `coverUrl` follows the cover rule |
| `Projections.CoverRuleShared` | src/index.ts:70-73 | whenever `search_books` reduces a record, `get_trending` reduces it too, with the same cover URL and author text |
| `Projections.ProjectSearchBooks` | src/index.ts:26-32 | on a missing `docs` the list is absent and the call succeeds; a `docs` that is present but not an array is a TypeError; a successful call has a list exactly when `docs` is an array, with one summary per document, in order; the call fails if and only if some document fails; `total` is `numFound` |
| `Projections.ProjectSearchAuthors` | src/index.ts:46-51 | on a missing `docs` the list is absent; a `docs` that is present but not an array is a TypeError; a successful call has a list exactly when `docs` is an array, with one summary per document, in order; the call fails if and only if some document is null; `total` is `numFound` |
| `Projections.ProjectAuthorWorks` | src/index.ts:58-62 | an answer that is an array fails with a TypeError, since its `entries` is `Array.prototype.entries`, which has no `map`; otherwise a missing `entries` gives an absent list; an `entries` that is present but not an array is a TypeError; a successful call has a list exactly when `entries` is an array, with one summary per entry, in order; the call fails if and only if some entry is null; `total` is `size` |
| `Projections.ProjectTrending` | src/index.ts:69-74 | on a missing `works` the list is absent; a `works` that is present but not an array is a TypeError; a successful call has a list exactly when `works` is an array, with one summary per work, in order; the call fails if and only if some work fails; there is no total |
| `Tools.SearchBooks` | src/index.ts:20-33 | invalid arguments fail with no dispatch and the gate unchanged; otherwise the search URL is dispatched once through the gate, and the result is the reduced answer or the fetch error |
| `Tools.GetBook` | src/index.ts:35-41 | invalid arguments fail with no dispatch; otherwise `BookUrl(key)` is dispatched, and the document is returned as it came |
| `Tools.SearchAuthors` | src/index.ts:43-52 | invalid arguments fail with no dispatch; otherwise the author-search URL is dispatched, and the result is the reduced answer or the fetch error |
| `Tools.GetAuthorWorks` | src/index.ts:54-63 | invalid arguments fail with no dispatch; otherwise the works URL is dispatched, and the result is the reduced answer or the fetch error |
| `Tools.GetTrending` | src/index.ts:65-75 | invalid arguments fail with no dispatch; otherwise the trending URL is dispatched, and the result is the reduced list or the fetch error |
| `Tools.TwoLookups` | src/index.ts:11-13 | two calls in sequence, with honoured pauses, start at least 200 ms apart, whatever the first answer was |

## Left out

- The HTTP request is not modelled: `fetch`, the `User-Agent: mcp-open-library/1.0.0` header and `res.json()`. The answer is an input: a status and, when the body is JSON, the decoded document, or no answer at all when `fetch` rejects. `fetch`'s own URL parsing is not modelled either, so the URL statements are about the URL string, not the request it becomes.
- `Date.now` and `setTimeout` are not modelled. The two clock readings are parameters. The model does not capture that `setTimeout` fires after 1 ms when given a delay above 2^31-1 ms. That delay can only arise after the clock steps back by weeks.
- Concurrency is not modelled. Two calls that both pause in `olFetch` read the same `last` and can dispatch at nearly the same moment; the spacing property is stated only for sequential dispatches.
- `URLSearchParams` form encoding and `encodeURIComponent` are function parameters, not defined.
- The model does not include `JSON.stringify` pretty-printing or the `{ content: [{ type: "text", ... }] }` wrapping. So it does not capture that fields holding `undefined` are dropped from the text. It also does not capture that `get_trending` with no `works` list stringifies `undefined`.
- JSON numbers are integers. Fractions, precision beyond 2^53, and the exponent notation `String(n)` uses from 10^21 on are not modelled. Non-integer limits, which `z.number()` accepts, are not modelled either.
- Zod's issue messages and paths are not modelled. A failed validation carries only the names of the failing arguments, in declaration order.
- Strings are sequences of Unicode scalar values, while JavaScript indexes them by UTF-16 code unit. So `?.[0]` and `?.slice(0, 5)` on a string whose first characters lie outside the Basic Multilingual Plane differ from the model: JavaScript can split a surrogate pair.
- Member access covers only own fields of objects, and `?.[0]` also reads a field named "0". Properties inherited from prototypes are not modelled in general. Of the names the handlers read, only `entries` is one: it is `Array.prototype.entries` on an array. `Projections.ProjectAuthorWorks` models that case, the only one where it is read from a value that may be an array. Conversion to text looks up `toString` the same way; an own field of that name is never callable, and `Js.Stringable` models the TypeError that follows.
- `uriEnc` is total, and strings here are sequences of Unicode scalar values. So the model does not capture that `encodeURIComponent` throws a URIError on a query holding a lone surrogate, such as the JSON string `"\ud800"`. `search_authors` then fails before any request is made.
- The MCP server, the stdio transport, tool registration and `main` are not modelled. They are transport plumbing.
