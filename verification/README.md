# leetcode_query_api — a verified model of the search proxy's decisions

The service is a thin HTTP proxy with one route, `GET /search?q=…`. It sends the
keyword to the LeetCode GraphQL catalog and filters the returned questions
again locally: it keeps a question when its lower-cased title contains the
lower-cased keyword. It then reshapes each kept question into a `Problem`
(title, slug, difficulty, content, tag names) and answers 200, 400 or 500.
Every request first goes through an origin-policy middleware. That middleware
sets four cross-origin headers when the `Origin` is on a fixed allow-list, and
answers every `OPTIONS` request with 204.

The model covers three decision pieces, in four modules:

- `Text` (`text.dfy`): the string operations the code calls. These are ASCII
  lower-casing (`ToLower`), substring search (`Contains`, shown equal to "occurs
  at some index"), and splitting on a separator (`Split`, with `Join` as its
  inverse).
- `Catalog` (`catalog.dfy`): the decoded upstream records (`TopicTag`,
  `Question`, `QuestionList`) and the public `Problem`.
  - The filter/map is specified as `Select = ProjectAll ∘ Kept`, that is map
    `Project` over filter `Matches`.
  - `KeptIndices` gives the input positions the output comes from.
  - The loop of `fetchProblems` is the method `FilterProblems`, with its inner
    tag loop `CollectTagNames`. Both are proved equal to the specification.
  - `FetchProblems` adds the single upstream call, made through a
    `CatalogClient` object. The client's fixed `answer` function maps the
    request variables (`CatalogRequest`: category slug `all-code-essentials`,
    limit 100, skip 0, the keyword) to either a decoded `QuestionList` or a
    `TransportError`. Its `sent` field records every request run, in order.
- `Cors` (`cors.dfy`): the middleware.
  - `Middleware` is a class whose allow-list is computed once, in its
    constructor, by splitting the comma-separated constant. That constant is
    written in the model as the two origins joined by a comma, which is the
    same string.
  - `Context` is a class holding the request's origin and method and the mutable
    response header map, status and abort flag.
  - `Handle` runs the linear scan `IsOriginAllowed`, performs the four
    `Header().Set` calls and decides between abort-with-204 and continue.
- `Server` (`server.dfy`): the `/search` handler `Search`, with its early
  returns. It is proved against the response function `SearchResponse`. Its
  contract also says what it adds to the client's `sent` log: nothing for an
  empty query, exactly one request otherwise.

## Model

| member | source | states |
|---|---|---|
| `Text.ToLower` | main.go:81 | The result has the input's length; each character is the ASCII-lower-cased input character; no upper-case ASCII letter remains |
| `Text.ToLowerIdempotent` | main.go:81 | Lower-casing an already lower-cased string changes nothing |
| `Text.Contains` | main.go:81 | The substring test used by the filter. `Text.ContainsIffOccurs` shows it holds exactly when the needle occurs at some index, and `Text.ContainsEmpty` shows the empty needle is always contained |
| `Text.ContainsIffOccurs` | main.go:81 | The substring test holds exactly when the needle occurs at some index of the haystack (both directions) |
| `Text.ContainsEmpty` | main.go:81 | The empty string is contained in every string, so an empty search matches every title |
| `Text.Split` | main.go:104-107 | Splitting always yields at least one field, and no field contains the separator |
| `Text.JoinSplit` | main.go:106 | Joining the fields of a split with the separator gives back the original string (round trip) |
| `Text.SplitWithoutSeparator` | main.go:106 | A string without the separator splits into exactly itself |
| `Text.SplitFirstField` | main.go:106 | A separator-free field, then the separator, then a rest: the split is that field followed by the split of the rest |
| `Catalog.TagNamesFaithful` | main.go:82-85 | The tag list has as many entries as the topic tags, and entry k is the name of topic tag k |
| `Catalog.ProjectAllPointwise` | main.go:87-93 | Projecting a list keeps its length, and element k is the projection of input k |
| `Catalog.KeptIndicesPick` | main.go:80-81 | Each kept index is in range, its question matches, and the k-th kept question is the question at the k-th kept index |
| `Catalog.KeptIndicesIncrease` | main.go:80 | Kept indices are in range and strictly increasing, so input order is kept |
| `Catalog.KeptIndicesExact` | main.go:80-81 | A position is kept if and only if the question there matches the search |
| `Catalog.SelectIsOrderedSubsequence` | main.go:80-95 | The output is the projection of the input questions at a strictly increasing index list. Those indices are exactly the matching positions, so the output equals map(project, filter(matches, questions)) |
| `Catalog.SelectFieldsFaithful` | main.go:82-93 | Each output problem keeps title, titleSlug, difficulty and content unchanged from its source question. Its tags are that question's topic-tag names, with the same length and order, and the slugs are dropped |
| `Catalog.SelectSound` | main.go:81-93 | Every output problem's lower-cased title contains the lower-cased search string |
| `Catalog.SelectComplete` | main.go:80-95 | Every input question that matches appears, projected, in the output |
| `Catalog.SelectIgnoresSearchCase` | main.go:81 | Two search strings with the same lower-cased form give the same output |
| `Catalog.KeptIgnoresSearchCase` | main.go:81 | Two search strings with the same lower-cased form keep the same questions |
| `Catalog.SelectEmptySearch` | main.go:81 | An empty search string keeps every question: the output is the projection of the whole input |
| `Catalog.KeptEmptySearch` | main.go:81 | An empty search string filters out nothing |
| `Catalog.CollectTagNames` | main.go:82-85 | The appending loop over the topic tags returns exactly the tag-name list |
| `Catalog.FilterProblems` | main.go:78-97 | The appending loop over the questions returns exactly map(project, filter(matches, questions)) |
| `Catalog.RequestFor` | main.go:64-70 | The request variables for a search: category `all-code-essentials`, limit 100, skip 0, keyword = search. Used in the contracts of `Catalog.FetchProblems` and `Server.Search` |
| `Catalog.Matches` | main.go:81 | The keep test: the lower-cased title contains the lower-cased search. `Catalog.KeptIndicesExact` shows that a position is kept if and only if it holds; `Catalog.SelectSound` and `Catalog.SelectComplete` state it for the output |
| `Catalog.Project` | main.go:87-93 | The reshaping of one question into a Problem. `Catalog.SelectFieldsFaithful` states that it copies the scalar fields and turns the topic tags into their names |
| `Catalog.CatalogClient.constructor` | main.go:38 | A fresh client answers as the given catalog and has sent nothing yet |
| `Catalog.CatalogClient.Run` | main.go:74-76 | Running a request appends it to the sent log and returns the catalog's answer to it: the decoded list or the transport error |
| `Catalog.FetchProblems` | main.go:64-97 | Exactly one request is added to the client's log: category `all-code-essentials`, limit 100, skip 0, keyword = search. An upstream error is returned unchanged; otherwise the result is the locally filtered list of the decoded questions |
| `Cors.AllowedOriginsFrom` | main.go:103-107 | The allow-list built from the comma-separated string: empty for the empty string, otherwise its fields. `Cors.AllowedOriginsValue` and `Cors.AllowedOriginsExactly` state its value for the configured constant |
| `Cors.AllowedOriginsOfPair` | main.go:102-107 | A non-empty list of two comma-free origins joined by a comma becomes exactly those two allow-list entries |
| `Cors.AllowedOriginsValue` | main.go:102-107 | The configured string gives the allow-list `[http://localhost:3000, https://bruteforce-app.vercel.app]` |
| `Cors.AllowedOriginsExactly` | main.go:102-125 | An origin is on the allow-list if and only if it is string-equal to one of the two literal origins |
| `Cors.HeaderNamesDistinct` | main.go:127-130 | The four cross-origin header names are pairwise different, so no `Set` overwrites another |
| `Cors.WithCorsHeaders` | main.go:127-130 | The header after the four `Set` calls in order. `Cors.WithCorsHeadersShape` states its keys and values; `Cors.Middleware.Handle` states that it is the new header exactly when the origin is allowed |
| `Cors.WithCorsHeadersShape` | main.go:127-130 | After the four sets, the header has the old names plus exactly the four. Allow-Origin echoes the request origin, Allow-Credentials is `true`, and Allow-Headers and Allow-Methods have their fixed values. Every other header is unchanged |
| `Cors.IsOriginAllowed` | main.go:112-119 | The scan with early return answers true if and only if the origin is an element of the allow-list |
| `Cors.Context.constructor` | main.go:110-122 | A fresh context carries the request's origin and method, an empty response header, status 200, and is not aborted |
| `Cors.Context.SetHeader` | main.go:127-130 | Setting a header replaces all its values by the single given value and changes nothing else |
| `Cors.Context.AbortWithStatus` | main.go:134-136 | Aborting records the status and marks the context aborted, and leaves the header alone |
| `Cors.Middleware.constructor` | main.go:100-107 | The middleware's allow-list is the split of the non-empty constant, namely the two literal origins |
| `Cors.Middleware.Handle` | main.go:110-141 | The header gains the four cross-origin headers if and only if the origin is allowed, and is otherwise untouched. `OPTIONS` always aborts with 204 and never reaches the next handler, whatever the origin. Any other method always continues, with status and abort flag unchanged, even for an origin that is not allowed |
| `Cors.ApplyToRequest` | main.go:100-146 | The installed middleware on one fresh request: for either allowed origin the header is exactly the four names with Allow-Origin echoing it. For any other origin the header stays empty. Only non-`OPTIONS` requests go on |
| `Server.SearchResponse` | main.go:149-161 | The response chosen for a query and a catalog. `Server.SearchOutcomes`, `Server.SearchResultsMatchQuery` and `Server.SearchHidesTransportError` state its status, body, soundness and completeness, and that no transport detail appears in it |
| `Server.Search` | main.go:147-161 | The handler's response is the one `SearchResponse` chooses. An empty `q` leaves the client's sent log unchanged, so no fetch happens. A non-empty `q` appends exactly one request, for that keyword |
| `Server.SearchOutcomes` | main.go:149-161 | Status 400 if and only if `q` is empty. Status 500 if and only if `q` is non-empty and the fetch failed. Status 200 if and only if `q` is non-empty and the fetch succeeded. Non-200 responses carry an error body and 200 responses carry results |
| `Server.SearchResultsMatchQuery` | main.go:154-161 | In a 200 response every result's title contains `q`, ignoring case, and every matching upstream question is among the results |
| `Server.SearchHidesTransportError` | main.go:155-158 | Two different upstream failures produce the same response, `500 {"error": "Failed to fetch problems"}`; no transport detail reaches the client |

## Left out

- The GraphQL query document, the network transfer and JSON decoding into `QuestionListResponse` (main.go:38-76) are foreign library calls and I/O. They are replaced by the `CatalogClient`'s `answer` function, which maps the request variables to a decoded `QuestionList` or a `TransportError`. The request's four variables are modelled; the query text is not.
- The catalog is modelled as answering deterministically per request. The contracts prove that each handler call makes at most one request, so nothing depends on repeated calls.
- Go strings are byte sequences, and a percent-decoded `q` such as `%FF` can hold bytes that are not valid UTF-8. `strings.ToLower` turns such a byte into U+FFFD, and `strings.Contains` compares bytes. The model's strings are sequences of characters. It therefore takes every input to be valid UTF-8, decoded to characters; for such inputs, a substring test on bytes and one on characters agree. Invalid byte sequences are not modelled.
- `totalNum` is decoded but never used by the code; the model carries it and states nothing about it.
- gin routing, middleware chaining (`c.Next` runs the rest of the chain; the model returns whether it would be called), JSON serialisation of responses and server start-up on port 8080 (main.go:144-166) are framework plumbing.
- The log line written on a fetch error (main.go:156) is a side effect with nothing to state beyond "it happens on the 500 path".
- Text.ToLower: lower-cases ASCII letters only. Go's `strings.ToLower` follows Unicode case mapping, which is a library table not modelled here.
- Go's nil-slice JSON encoding is not modelled. "No matches" and "no tags" serialise as `null`, but in the model they are empty sequences.
- `Header().Set` canonicalises the header name. The four names used are already in canonical form, so the model uses them as given. `Request.Header.Get("Origin")` returns the first value, or "" when the header is absent; the model takes that string as the context's origin.
- Only the parts of the gin context that the middleware touches are modelled: the request's origin and method, the response header map, the status and the abort flag.
