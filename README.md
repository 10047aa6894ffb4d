# TAXII indicator dashboard — a Dafny model of its core

The application keeps a list of configured TAXII feeds and a store of threat indicators. A
refresh pulls the indicators of every feed into the store, and a search page filters the store
by free text and by type. This project models the logic behind these operations:

- `TaxiiClient` (taxii_client.py). It has the client's four fields and its two operations.
  - `DiscoverCollections` flattens the collections of every API root of a server into
    `{title, description, id}` records. A falsy description becomes `"No description"`. Any
    failure yields nothing at all.
  - `GetIndicators` looks only at the first API root. It picks the first collection whose title
    equals the configured collection name and flattens each STIX object the indicator query
    returns into a record: the value (`value`, else `pattern`), the description and `last_seen`
    (default `''`), the type, and the collection name as source.
- `App` (app.py). The feed list and the indicator store are two fields of a `Store` object,
  standing for the two JSON files.
  - `AddFeed` appends one feed.
  - `DeleteFeed` removes a feed by position, after a bounds check.
  - `RefreshFeeds` concatenates the indicators of the feeds in list order and skips a feed whose
    fetch raised. It replaces the whole store with the result and returns the count.
  - `Search` keeps, in stored order, the indicators whose lower-cased value, description or
    type contains the lower-cased query, and whose lower-cased type contains the lower-cased
    type filter. A missing field counts as `''`.
- `Text` holds ASCII lower-casing and Python's substring test `p in s`, with a reference
  definition of an occurrence. `Wrappers` holds `Option` and `Result`.

The network is a parameter (`TaxiiClient.Network`). For a server URL and the credentials it
gives the API roots, or a failure. Each API root carries what reading its collections yields.
Each collection carries what the library's indicator query over it yields. Python exceptions
are `Failure` values. The per-feed fetch of a refresh is a parameter of `RefreshFeeds` of type
`Feed -> Result<seq<Indicator>>`. `App.ClientFetch` is the fetch the application actually uses:
it evaluates `TaxiiClient.Fetched` on the feed's URL, collection name and credentials, which is
what `Client.GetIndicators` is proved to return.

The model's defining functions are these. `TaxiiClient.Discovery` (built on `Flattened`) is what
`discover_collections` returns. `TaxiiClient.Fetched` (built on `FirstTitle` and
`NormalizeAll`) is what `get_indicators` returns. `App.Select` filters the stored indicators
and `App.SearchResult` applies it to the lower-cased request arguments. `App.Gather`
concatenates the feeds' indicators. `Text.Lower` lower-cases and `Text.Contains` is Python's
`p in s`. `Text.Lower` and `TaxiiClient.FirstTitle` have contracts of their own and rows below.
The other defining functions have no `ensures` clause, so their properties are stated by the
lemmas and methods named in the rows below.

## Model

| member | source | states |
|---|---|---|
| `Text.LowerChar` | app.py:194-207 | An ASCII capital letter becomes its small letter, and every other character stays as it is. |
| `Text.Lower` | app.py:194-207 | Lower-casing keeps the length and lower-cases every character in place. |
| `Text.LowerIgnoresCase` | app.py:194-195 | Two strings that differ only in ASCII letter case, position by position, lower-case to the same string. |
| `Text.ContainsIffOccurs` | app.py:202-207 | The substring test holds exactly when the pattern occurs at some position of the text, in both directions. |
| `Text.LowerPreservesContains` | app.py:194-207 | An occurrence of the query in a field is still an occurrence once both are lower-cased. |
| `TaxiiClient.Client.constructor` | taxii_client.py:6-10 | The client keeps the server URL, collection name, user name and password it was given. |
| `TaxiiClient.Describe` | taxii_client.py:23-27 | A discovered record copies the collection's title and id. Its description is `"No description"` when the source description is None or empty, and the source description otherwise. |
| `TaxiiClient.DiscoveryGuard` | taxii_client.py:14-18 | Without a server URL (None or empty), or when the server cannot be reached, discovery returns nothing. |
| `TaxiiClient.DescribeAll` | taxii_client.py:22-27 | An API root's collections give one record per collection, in order, each the `Describe` of that collection. |
| `TaxiiClient.FlattenedFailsIff` | taxii_client.py:21-32 | Discovery over the API roots fails exactly when some API root cannot list its collections. |
| `TaxiiClient.FlattenedLength` | taxii_client.py:21-27 | A successful discovery has one record per collection, so its length is the sum of the collection counts of all API roots. |
| `TaxiiClient.FlattenedAppend` | taxii_client.py:21-27 | Records come root by root, in order: discovery over two runs of roots lists the first run's records, then the second's. |
| `TaxiiClient.FlattenedOrigin` | taxii_client.py:21-27 | Every discovered record is the description of some collection of some API root. |
| `TaxiiClient.DiscoveryAllOrNothing` | taxii_client.py:17-32 | Discovery returns either nothing or the full list. A non-empty result means the server answered, every API root listed its collections, and there is one record per collection. |
| `TaxiiClient.Client.DiscoverCollections` | taxii_client.py:12-32 | The nested loops over API roots and collections return exactly `Discovery` of the client's fields, and nothing on any failure. |
| `TaxiiClient.FirstTitle` | taxii_client.py:43-44 | The found index has the exact title, and no earlier collection has it. None means no collection has the title. |
| `TaxiiClient.Normalize` | taxii_client.py:61-67 | A record takes the object's `value` if present, otherwise its `pattern`. Description and `last_seen` default to `''`, the type is copied and the source is the collection name. The mapping raises exactly when the object has neither `value` nor `pattern`. |
| `TaxiiClient.NormalizeAllSpec` | taxii_client.py:59-69 | Flattening the query result fails exactly when some object cannot be normalized. Otherwise it yields one record per object, in order. |
| `TaxiiClient.FetchedGuard` | taxii_client.py:35-36 | With no server URL or no collection name (None or empty), nothing is fetched. |
| `TaxiiClient.FetchedFailures` | taxii_client.py:38-72 | An unreachable server, a server without API roots (`api_roots[0]` raises), a first root whose collections cannot be read, or a failing query of the first same-titled collection (`Collection`, `TAXIICollectionSource` or `query` raising) yields nothing. |
| `TaxiiClient.FetchedNoMatch` | taxii_client.py:43-74 | When no collection of the first API root has the title, nothing is fetched. |
| `TaxiiClient.FetchedFirstMatchOnly` | taxii_client.py:41-69 | Only the first API root is consulted, and only up to its first collection with the title. Two servers that agree on that part fetch the same records, whatever their other roots and their later same-titled collections hold. |
| `TaxiiClient.FetchedRecords` | taxii_client.py:56-69 | Once the collection is found and its query succeeds, the result is one normalized record per object, in order. It is nothing when some object has neither `value` nor `pattern`. |
| `TaxiiClient.Client.GetIndicators` | taxii_client.py:34-74 | The guard, the first-root lookup, the first-title loop with its early return and the record-building loop return exactly `Fetched` of the client's fields. |
| `App.SelectAppend` | app.py:200-211 | Filtering is done element by element: filtering a concatenation filters each part. |
| `App.SelectSound` | app.py:202-210 | Every search result is a stored indicator. The query is empty or occurs in its lower-cased value, description or type. The type filter is empty or occurs in its lower-cased type. |
| `App.SelectCounts` | app.py:200-211 | Nothing is added or lost. A matching indicator appears in the result as often as it is stored, and a non-matching one never. |
| `App.SelectIsSubsequence` | app.py:200-211 | The results keep the stored order: the result is a subsequence of the store. |
| `App.SelectUnfiltered` | app.py:199-211 | With an empty query and an empty type filter, the stored list is returned unchanged. |
| `App.SearchFindsIgnoringCase` | app.py:194-209 | A stored indicator is found when, after lower-casing, one of its value, description or type contains the query and its type contains the type filter. |
| `App.SearchFindsExactCase` | app.py:194-209 | An indicator whose field contains the query exactly as typed (and whose type contains the type filter as typed) is never lost by the lower-casing. |
| `App.SearchCaseInsensitive` | app.py:194-211 | Two queries and two type filters that differ only in ASCII letter case, position by position, show exactly the same indicators. |
| `App.Store.Search` | app.py:192-213 | The search loop returns exactly `SearchResult` (that is, `Select` over the lower-cased arguments) for the request's `q` and `type` arguments, an absent one read as `''`. |
| `App.Store.AddFeed` | app.py:133-148 | The feed list becomes the old list followed by the one new feed: it is one longer and its earlier entries are unchanged. |
| `App.RemoveAt` | app.py:153-155 | Removing position `i` gives a list one shorter. Entries before `i` stay in place, and entries after `i` move down one place in the same order. |
| `App.Store.DeleteFeed` | app.py:150-156 | Within range, the feed at the index is removed and the list saved. Out of range, nothing changes and nothing is saved. |
| `App.GatherAppend` | app.py:163-171 | Feeds are processed in list order: refreshing two runs of feeds stores the first run's indicators, then the second's. |
| `App.GatherSkipsFailure` | app.py:163-173 | A feed whose fetch raises contributes nothing, and the feeds before and after it still contribute theirs. |
| `App.GatherKeepsSuccess` | app.py:163-171 | A feed whose fetch succeeds contributes exactly its indicators, between those of the feeds before and after it. |
| `App.GatherAllFail` | app.py:161-175 | When every feed raises, the indicator store is emptied. |
| `App.RefreshWithClient` | app.py:165-171 | With the application's own client no feed is skipped. Each feed contributes what `get_indicators` returns for it, in list order. |
| `App.Store.RefreshFeeds` | app.py:158-176 | The store is replaced by `Gather` of the feeds, the in-order concatenation of the successful feeds' indicators, and the feed list is unchanged. The returned count is the length of the new store. |

## Left out

- HTTP routing, templates, redirects, JSON responses and form parsing (app.py:1-18, 40-44): these are interface glue. Form and query arguments are parameters, with `None` for a value that was not sent.
- `load_feeds`, `save_feeds`, `load_indicators` and `save_indicators` (app.py:20-38) are file I/O. In the model, the two stores are the fields of `Store`, which the methods read and replace. `DeleteFeed` reports whether it saved.
- The network and the STIX libraries (`Server`, `Collection`, `TAXIICollectionSource`, `Filter`) are not modelled; their results are inputs, as described above. The 7-day `last_seen` filter uses the clock and runs inside the library query, so it is part of that input.
- The clock in `add_feed` (`datetime.now()`) is the parameter `now` of `AddFeed`.
- `discover_api_roots` (app.py:115-131) is a thin wrapper over the server's API-root list and is not modelled.
- `indicator_details` (app.py:89-113) calls `get_indicator_by_id`, which the client class does not define. The resulting exception is swallowed, so the route always reports "not found". The model gives no behaviour to the missing method.
- The module-level `get_indicators(self, ...)` at app.py:47-87 is never called and is not modelled.
- config.py holds constants and an environment lookup, and is not modelled.
- Logging through `print` is not modelled; a logged failure is just a skipped feed or an empty result.
- Text.Lower: lower-cases ASCII letters only. Python's `str.lower` also lower-cases other Unicode letters, so the model matches case-insensitively only for ASCII letters.
- App.Store.Search: a stored record whose field is present but JSON `null` makes the source raise at `.lower()`. The model has no such value: a field is either a string or missing, and missing reads as `''`.
- App.Store.RefreshFeeds: each stored feed has all its keys, so `feed['url']` and `feed['collection']` cannot raise here. A `Failure` of the fetch parameter stands for any exception raised while fetching a feed. The source's handler reads `feed['name']`, and it runs only when that same feed's fetch has already raised (for instance, a stored record with no `url` or `collection` key). If such a record also has no `name` key, the handler itself raises and the refresh fails. The model does not capture that case.
- `TaxiiClient.Client.DiscoverCollections` and `GetIndicators` return only the records. The error messages they print are dropped.
