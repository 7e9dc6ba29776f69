# Jaundice-rate scraper: per-article classification and query parsing

This project models the two pieces of pure logic inside the asynchronous
"jaundice rate" news scraper:

- **Per-article processing** (`main.py`). The scraper fetches an article under a
  three-second deadline, then looks up the site extractor by the URL's host:
  every `.` in the host becomes `_` and the result is the registry key. The
  scraper then classifies the outcome as `TIMEOUT`, `FETCH_ERROR`,
  `PARSING_ERROR` or `OK`. Unless an exception escapes, it appends exactly one
  four-field result record to the shared result list. The exceptions that
  escape are a fetch failure of a kind no `except` clause names, and an
  exception raised while extracting, tokenizing or rating the page. The record
  is the dictionary built by `packing_into_dict`.
- **Request guard** (`server.py`). The scraper splits the `urls` query parameter
  on `,`. An absent or empty query is refused. More than `ARTICLES_LIMIT` = 10
  pieces, counted before stripping, is also refused. Otherwise each piece is
  stripped of surrounding whitespace. `handle` answers the two refusals with
  fixed JSON error bodies.

Network I/O, the tokenizer, the rating formula and the extractors are inputs of
the model. The fetch is a `FetchOutcome`. The extractor table is a
`map<string, Extractor>`. The tokenizer and the rating function are function
values in `Env`. Extractors, tokenizer and rating function return an `Option`,
where `None` stands for the call raising. The model computes the rest.

Modules:

| file | module | contents |
|---|---|---|
| `wrappers.dfy` | `Wrappers` | `Option`, `Result` |
| `text.dfy` | `Text` | Python's `str.split(',')` and `str.strip()` over `seq<char>`, with `IsWhitespace` following `str.isspace()`; `Join` as the inverse of `Split`; a characterisation of `Strip` |
| `adapters.dfy` | `Adapters` | adapter-key derivation and registry lookup (`get_adapter`) |
| `article.dfy` | `Article` | statuses, result records and their dictionary form (`packing_into_dict`), `process_article`'s `try`/`except` logic, the append, and a sequential run over a batch |
| `query.dfy` | `Query` | `pack_query_to_list`, `ARTICLES_LIMIT`, `handle`'s error-to-response mapping |

Notes on the code's error handling:

- Only `ClientResponseError` becomes `FETCH_ERROR`. Any other failure of the
  request (refused connection, DNS failure) is caught by no `except` clause, so
  it leaves `process_article` unhandled. In the model this case is
  `FetchOutcome.ConnectionFailed`, which produces `Failure(Unhandled)` and
  appends no record.
- The extractor, `split_by_words` and `calculate_jaundice_rate` are called in
  the `else` clause (main.py:91-98), outside the `try`. An exception from any
  of them also leaves `process_article` with no record appended. In the model
  this is `Failure(Unhandled)` too.
- The record carries a title (`"URL: " + url` in `main`) under the key
  `Заголовок`, not a `url` field.
- The 10-URL limit counts comma-separated pieces of the raw query, blank ones
  included, not URLs.

## Model

| member | source | states |
|---|---|---|
| Adapters.AdapterKey | main.py:42-43 | The derived key has the host's length and contains no `.`. Every `.` of the host becomes `_` and every other character is kept in place. |
| Adapters.GetAdapter | main.py:44 | The lookup succeeds exactly when the derived key is registered, and then returns that key's extractor. Otherwise it fails with a `KeyError` carrying the derived key. |
| Adapters.AdapterKeyIdempotent | main.py:43 | Deriving a key from a derived key changes nothing. |
| Adapters.SameKeyIff | main.py:43 | Two hosts share a registry key if and only if they have equal length and differ only at positions where both hold `.` or `_`. |
| Article.StatusNameRoundTrip | main.py:83-98 | The four status strings `OK`, `TIMEOUT`, `FETCH_ERROR` and `PARSING_ERROR` are read back as the status they name, so they are pairwise distinct. |
| Article.PackingIntoDict | main.py:48-54 | The record dictionary has exactly four distinct keys. |
| Article.PackingRoundTrip | main.py:48-54 | Title, status, score and word count are each stored unchanged under their own fixed key. Reading the four keys back, as `main`'s printer does, recovers the record exactly. |
| Article.ProcessArticle | main.py:75-98 | A record is produced exactly when the fetch does not fail with an uncaught error and, for a fetched page with a registered host, the extractor, the tokenizer and the rating function all return. A timeout gives `TIMEOUT`. An HTTP error status gives `FETCH_ERROR`. A fetched page with an unregistered host gives `PARSING_ERROR`. A fetched page with a registered host gives `OK`. Each holds in both directions. The record has the given title and is well formed: score and word count are present if and only if the status is `OK`. An `OK` record's word count is the number of tokens of the extracted text. Its score is the rating function's value on those tokens and the charged words. |
| Article.FetchPrecedesLookup | main.py:77-89 | When the fetch did not return a page, the record does not depend on the registry or on the host. A failed fetch is classified before any extractor lookup. |
| Article.AppendResult | main.py:83-98 | When `process_article` produces a record, exactly one record is appended at the end and the existing results stay unchanged. When an exception escapes, nothing is appended. |
| Article.ProcessAll | main.py:107-110 | A batch succeeds exactly when every article's processing produces a record, that is, when no exception escapes for any article. Then there is exactly one record per article, and record i is article i's record under the title `URL: <url>`. |
| Article.BatchWellFormed | main.py:107-110 | Every record of a handled batch keeps the status/optional-field invariant. |
| Text.Split | server.py:21 | `str.split(',')` returns one piece more than there are commas, and no piece contains a comma. |
| Text.JoinSplit | server.py:21 | Joining the split pieces with the separator gives back the original string, so splitting loses and reorders nothing. |
| Text.SplitJoin | server.py:21 | Splitting a join of separator-free pieces gives back exactly those pieces, empty ones included. |
| Text.TrimLeft | server.py:24 | The result is a suffix of the input. Everything removed is whitespace, and the result does not start with whitespace. |
| Text.TrimRight | server.py:24 | The result is a prefix of the input. Everything removed is whitespace, and the result does not end with whitespace. |
| Text.Strip | server.py:24 | `str.strip()` returns a slice of the input with only whitespace outside it, and no whitespace at either end of the slice. |
| Text.StripUnique | server.py:24 | Any slice with those two properties equals `Strip`'s result, so the contract determines `str.strip()` completely. |
| Text.StripIdempotent | server.py:24 | Stripping twice is the same as stripping once. |
| Text.StripWhitespaceOnly | server.py:24 | A whitespace-only piece strips to the empty string. |
| Query.PackQueryToList | server.py:18-24 | `NoDataInQuery` is raised if and only if the query is absent or empty. `ExceedingNumberOfRequests` is raised if and only if a non-empty query has 10 or more commas. Otherwise the call returns commas + 1 ≤ 10 URLs. Each URL is comma-free with no edge whitespace, and URL i is the i-th comma-separated piece, stripped. |
| Query.StripAll | server.py:24 | The list comprehension keeps the number of pieces and strips each piece in place. |
| Query.PackJoinedSegments | server.py:21-24 | A non-empty query made of 1 to 10 comma-free segments returns exactly those segments, stripped, in order. |
| Query.TooManySegments | server.py:21-23 | Any query with more than 10 comma-separated segments is refused with `ExceedingNumberOfRequests`. This holds whatever the segments contain, blank ones included, because the count is taken before stripping. |
| Query.BlankSegmentKept | server.py:21-24 | A blank segment, such as the middle of `a,,b`, is returned as `""` in its own position and is not dropped. |
| Query.Handle | server.py:39-48 | An absent or empty query gets `{"error": "No data in query."}`. A query with more than 10 pieces gets the too-many-urls body. Each holds in both directions, and the two bodies are exclusive. Otherwise the stripped URL list, at most 10 long, goes on to processing. |

## Left out

- `fetch`, `aiohttp.ClientSession`, `async_timeout` (main.py:69-78): network I/O and the clock. Only the fetch outcome (timeout, HTTP error status, other failure, page body) is an input. The three-second deadline appears only through the `TimedOut` outcome. The status code carried by `HttpErrorStatus` is not interpreted, because `raise_for_status` is library code.
- Concurrency of `create_task_group` and the shared `processing_results` list (main.py:107-110, server.py:32-34). Tasks are run one at a time. The source appends in completion order, so its result order is not the input order the sequential model fixes. Cancellation of sibling tasks when one fails is also not modelled. The batch result is simply `Failure`.
- `get_charged_worlds` (main.py:57-66): directory and file I/O. The charged-word list is an input. Note that `readlines()` keeps each line's trailing newline in the source.
- `split_by_words`, `calculate_jaundice_rate`, `pymorphy2` and `SANITIZERS` are defined in files that are not part of this model. They are function values in `Env` and a registry map, each returning `None` where the call raises. The kind of exception they raise is not modelled, only that it escapes. The score formula is not specified, and the float score is a `real`.
- `urlparse(url).netloc` (main.py:42) is library URL parsing. The host string is the input of key derivation.
- `time_completion_contextmanager`, logging, the printing loop of `main`, `web.run_app` and routing are instrumentation and plumbing. The printer's reading of the four keys appears only as `FromDict`.
- `process_article_wrapper` (server.py:27-36) is not modelled. Its call at server.py:34 passes five arguments to the six-parameter `process_article`, because the title is missing, so it cannot run as written. `Handle` stops at the URL list it would hand over.
- The `KeyError` in `handle`'s first `except` clause (server.py:44) cannot arise from `request.query.get`. An absent parameter is modelled as the query `None`.
- `IsWhitespace` follows Python's `str.isspace()` for all code points it accepts. Dafny has no Unicode database, so the set is written out.
