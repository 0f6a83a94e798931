# GitHub repository scraper: a Dafny model of its core

This project models the collection core of a small GitHub repository scraper.

The `GitHubScraper` builds a search query for each configured topic. The query is `topic:<topic>`, plus an optional star-range qualifier read from the `stars.min` / `stars.max` settings. The scraper then pages through the search results. For each hit it asks the `GitHubAPIClient` for the repository's details, and it appends that record to its `results`. It never holds more than `max_repos` records. An empty page ends a topic.

The client does four things:
- It checks every response for GitHub's rate limit. A 403 with an `X-RateLimit-Remaining` header that reads as zero makes it pause.
- It raises for HTTP errors.
- It decodes JSON.
- It attaches a summary of the owner's recent events to each repository record that has an `owner`; a record without one is returned as fetched. The summary holds the event count, the count per event type, the first ten events and the `created_at` dates.

The model is split into these files:
- `wrappers.dfy` holds `Option`, `Result`, `Min` and `Max`.
- `dicts.dfy` holds Python dicts as insertion-ordered association lists: lookup, `d[k] = v`, and key order.
- `pyvalue.dfy` holds decoded JSON values and the Python operations applied to them. These are `v[k]`, `k in v`, `v[k] = x`, truthiness and iteration, together with the exceptions they raise.
- `decimal.dfy` holds decimal text of integers and Python's `int()` on strings.
- `counting.dfy` holds the count-per-key dictionary that the summary builds.
- `api_client.dfy` holds the client. HTTP is a `Transport`: one total function per kind of GET request, mapping the request's parameters to a response.
- `scraper.dfy` holds the query builder, its inverse, and the collection loop. The loop is specified by the functions `PageRun`, `TopicRun` and `TopicsRun`. These are written over an abstract page source and detail source, and the client supplies both through `TopicPages` and `DetailOf`.

A Python exception becomes an `Err` value, and the operation that raised it stops there. The class methods are imperative and keep the source's loops. Each method is proved equal to a specification function, and the properties are proved as lemmas about those functions.

`scrape_repositories` is one method with three nested loops. The model keeps the outer `for` loop in `ScrapeRepositories`. `ScrapeTopic` builds one topic's query. The `while` loop over pages is in `ScrapeQuery`, with the search and the `items` check at its head in `SearchPage`. The `for` loop over hits is in `ScrapePage`. This way each loop is verified on its own.

The test at tests/test_scraper.py:10-25 configures `min_stars: 100` and expects `topic:python stars:>=100`. The code at src/scraper.py:17-26 reads `stars.min` instead. With that configuration the code therefore builds `topic:python`. The model follows the code, and `Scraper.TestConfigurationQuery` states what the code produces for the test's configuration.

## Model

| member | source | states |
|---|---|---|
| Scraper.QueryRoundTrip | src/scraper.py:12-28 | For a topic without spaces, the query can be read back to exactly the topic and the star bounds it was built from. The four star branches (both bounds, min only, max only, none) are pairwise distinguishable, and an absent `stars` setting reads back as no bounds. |
| Scraper.ParseStarsSuffix | src/scraper.py:21-26 | Each present star range yields a qualifier starting with ` stars:` whose value reads back as that range: `lo..hi`, `>=lo` or `<=hi`. |
| Scraper.SearchQuery | src/scraper.py:14 | The query always starts with `topic:` followed by the topic. |
| Scraper.TestConfigurationQuery | tests/test_scraper.py:10-25 | With the test's configuration (`min_stars`, no `stars`) the query is `topic:python`, which is not the `topic:python stars:>=100` the test expects. |
| Scraper.GitHubScraper.constructor | src/scraper.py:7-10 | The scraper keeps the client and the configuration it is given, and starts with empty `results`. |
| Scraper.GitHubScraper.ScrapeRepositories | src/scraper.py:30-54 | `results` becomes what the topic loop collects on top of the old results, and the call returns `results` or raises the first exception. The old results stay a prefix, and `results` never exceeds `max_repos` unless it already did. |
| Scraper.GitHubScraper.ScrapeTopic | src/scraper.py:33-52 | One topic, searched with its own query, leaves exactly the results and the exception of `TopicRun` from page 1 over that topic's pages. |
| Scraper.GitHubScraper.ScrapeQuery | src/scraper.py:34-52 | The page loop for a query leaves exactly the results and the exception of `TopicRun` from page 1 over that query's search results. |
| Scraper.GitHubScraper.SearchPage | src/scraper.py:37-39 | Searching one page yields exactly `PageHits`: the page's hits, `[]` when `items` is falsy, or the exception raised on the way. |
| Scraper.GitHubScraper.ScrapePage | src/scraper.py:41-50 | The hit loop of one page leaves exactly the results and the exception of `PageRun`. |
| Scraper.PageRun | src/scraper.py:41-50 | A page only appends, and what it appends stays within `max_repos`. When it raises nothing, has hits and has room, it appends at least one record. |
| Scraper.TopicRun | src/scraper.py:36-52 | A topic only appends, and never beyond `max_repos`. |
| Scraper.TopicsRun | src/scraper.py:32-54 | The topics only append, and never beyond `max_repos`. |
| Scraper.PageRunInOrder | src/scraper.py:41-50 | A page appends the records of its first hits in hit order, as many as fit under `max_repos`. On an exception it stops at the hit that raised it, with room still left. |
| Scraper.HitDetail | src/scraper.py:46-49 | A hit that is not a dict raises `TypeError`. The lookups of `owner`, `owner.login` and `name` raise their own exceptions, in that order. A hit with all three gets exactly the record, or the exception, `get_repository` gives for that login and name. |
| Scraper.PageHitsEmpty | src/scraper.py:37-39 | A page counts as empty exactly when the search succeeded, the response has `items`, and `items` is falsy. |
| Scraper.EmptyPageEndsTopic | src/scraper.py:38-39 | An empty page ends the topic with nothing appended and no exception. |
| Scraper.TopicsRunAppend | src/scraper.py:32-33 | Topics are processed in order: running `ts1 + ts2` equals running `ts1` and then, unless it raised, running `ts2` on what `ts1` collected. |
| Scraper.TopicRunProvenance | src/scraper.py:36-50 | Every record a topic appends is the detailed record of a hit on one of the pages from the starting page on. |
| Scraper.TopicsRunProvenance | src/scraper.py:32-50 | Every record appended to `results` is the detailed record of a hit on some page of one of the configured topics. |
| ApiClient.RateLimitPauseExactly | src/api_client.py:19-22 | The client pauses exactly on a 403 whose `X-RateLimit-Remaining` header is present and reads as zero (optional sign, then zeros, surrounding whitespace allowed), when `rate_limit_pause` is not negative. It raises `ValueError` exactly on such a 403 when the header is not an integer, or reads as zero while the pause is negative (what `time.sleep` does with a negative duration). Python's digit limit for `int()` and the overflow of `time.sleep` are not modelled (see "## Left out"). |
| ApiClient.PausedRequestFails | src/api_client.py:28-30 | After a pause, the same 403 response is still raised as an HTTP error; the request is not retried. |
| ApiClient.Exchange | src/api_client.py:28-32 | A request succeeds exactly when the rate-limit check raises nothing, the status is not an HTTP error and the body is JSON; it then yields that body. A failing rate-limit check raises `ValueError`; otherwise an error status raises `HttpError` with that status, and a body that is not JSON raises a decode error. A response without an error status yields its JSON body whatever the rate-limit check decided. |
| ApiClient.GitHubAPIClient.SearchRepositories | src/api_client.py:24-32 | A search response without an error status yields its JSON body, or a decode error. A response with an error status raises that status, or `ValueError` for a malformed quota header or a negative pause. |
| ApiClient.GitHubAPIClient.RepoData | src/api_client.py:48-53 | The same as for search responses, for the repository request of that owner and name. |
| ApiClient.GitHubAPIClient.constructor | src/api_client.py:7-17 | The client keeps its token, settings and transport. |
| ApiClient.ParseEvent | src/api_client.py:84-86 | Reading one event succeeds exactly when it has a `type` that can be a dict key and a `created_at`, and it yields those two values. |
| ApiClient.ParseEventsAt | src/api_client.py:83-86 | A successful pass reads every event, in order. |
| ApiClient.ParseEventsFailure | src/api_client.py:83-86 | The pass fails exactly when some event cannot be read. It then fails with the exception of the first such event, and every earlier event was read. |
| ApiClient.GitHubAPIClient.SummarizeUserActivity | src/api_client.py:74-88 | The loop produces exactly the summary `Summary` specifies, or the exception `Summary` specifies. |
| ApiClient.SummaryShape | src/api_client.py:76-86 | `total_contributions` is the number of events. `recent_events` is the list of the first ten events. `activity_dates` holds every event's `created_at`, in event order. |
| ApiClient.SummaryValue | src/api_client.py:76-81 | The summary dict has the keys `total_contributions`, `contribution_types`, `recent_events` and `activity_dates`, in that order. `total_contributions` holds the event count and `recent_events` the recent events. |
| ApiClient.ContributionsCases | src/api_client.py:63-79 | The events call raises what the request raises. It returns a summary dict (the four keys, in order) only for a list body or an empty string body. For a list body it raises exactly when the summary does, and otherwise counts the list's events and keeps its first ten. An empty string body gives zero events and an empty string as `recent_events`. Any other body raises `TypeError`. |
| ApiClient.SummaryCounts | src/api_client.py:78-85 | `contribution_types` maps each event type to its number of occurrences. It has no other key and no key twice, and its counts add up to the number of events. |
| ApiClient.SummaryFailure | src/api_client.py:83-86 | The summary raises exactly when an event lacks `type` or `created_at` or has an unhashable type. The exception is that of the first such event. |
| ApiClient.GitHubAPIClient.GetUserContributions | src/api_client.py:55-72 | The method returns exactly what `Contributions` specifies: the events summary as a dict, the empty summary for an empty string body, or the exception of the request, of the summary or of a body that is not a list. |
| ApiClient.GitHubAPIClient.GetRepository | src/api_client.py:34-46 | The method returns exactly the record `RepositoryRecord` specifies, or raises what it specifies. |
| ApiClient.RepositoryRecordOnlySetsRecentActivity | src/api_client.py:34-46 | A record without `owner` is returned unchanged. In a record with an owner, only `owner.recent_activity` changes. It is set to the owner's activity over `activity_limit` days, 30 when the setting is absent. All other keys and their order are kept. |
| Counting.CountByKeyCount | src/api_client.py:85 | A key's count is its number of occurrences, and a key that never occurs is absent. |
| Counting.CountByKeyKeys | src/api_client.py:85 | The count dict's keys are exactly the distinct keys counted, each once. |
| Counting.CountByKeyTotal | src/api_client.py:85 | The counts add up to the number of keys counted. |
| Dicts.FindUpdate | src/api_client.py:85 | After `d[k] = v`, `k` maps to `v` and every other key keeps its value. |
| Dicts.KeysUpdate | src/api_client.py:44 | `d[k] = v` keeps the key order. A new key goes last. |
| PyValue.Subscript | src/scraper.py:38 | `v[k]` succeeds exactly on a dict holding `k`, and yields the value stored under `k`. It raises `KeyError` on any other dict and `TypeError` on anything else. |
| PyValue.Contains | src/api_client.py:39 | `k in v` on a dict is key membership, and it raises exactly for values that are not containers. |
| PyValue.SetItem | src/api_client.py:44 | `v[k] = x` succeeds exactly on a dict, and afterwards `v[k]` is `x`. |
| PyValue.SetItemSetsOnly | src/api_client.py:44 | `v[k] = x` changes the entry under `k` and nothing else. |
| PyValue.Iterate | src/scraper.py:41 | Iteration succeeds exactly on lists, dicts and strings, and yields no element exactly when the value is falsy. A list yields its items, a dict its keys in order, and a string its one-character strings. |
| Decimal.ParseIntToString | src/scraper.py:22 | `int()` reads back every integer from the decimal text the query writes for it. |
| Decimal.ParseIntZero | src/api_client.py:21 | `int()` reads a stripped string as zero exactly for an optional sign followed by one or more zeros (Python's digit limit aside, see "## Left out"). |

## Left out

- HTTP itself is not modelled: the session, the `Authorization`/`Accept` headers, URLs, query parameters, `per_page` and timeouts. Each kind of request is an abstract total function of its varying parameters. The model therefore assumes that the same request always gets the same response.
- The `time.sleep` call is not modelled, beyond the `ValueError` it raises for a negative duration. The model covers only the decision to pause (`RateLimitPause`). After the pause the request is not retried, which `PausedRequestFails` states.
- Response headers are looked up under their lower-cased names. The transport must therefore supply header names already in lower case. The case-insensitive header dict of `requests` is not modelled.
- `datetime.now()` and the `since` parameter are not modelled. The events request receives the window length in days.
- `save_results`, `ensure_dir`, the HTML renderer, configuration loading and `main.py` are outside this model. The scoring engine that the project documentation describes does not appear in the source files, so it is not modelled.
- Configurations are typed records. Missing `topics`, `max_repos`, `base_url`, `timeout` or `rate_limit_pause` keys therefore cannot be expressed. Neither can a `stars` entry that is not a table, or star bounds that are not integers.
- Python floats are not modelled, and neither is the rule that equal keys of different types (`1`, `1.0`, `True`) collide in a dict.
- `int()` is modelled for ASCII text only. It does not cover non-ASCII digits or whitespace, or underscores between digits.
- PyInt: does not model the limit of 4300 digits, leading zeros included, that Python 3.11 and later (and the security releases before them) put on `int()` of a string; longer text raises `ValueError` in Python and is read in the model. The limit has no fixed value across Python versions and can be changed at run time.
- RateLimitPauseExactly: a 403 whose `X-RateLimit-Remaining` header has more than 4300 digits (4301 zeros, say) raises `ValueError` in Python, while the model pauses or not as the number's value says. The same limit qualifies ParseIntZero and ParseIntToString.
- RateLimitPause: `time.sleep` raises `OverflowError` for a pause too large for the platform's time type (about 9.2e9 seconds on 64-bit builds); the model pauses.
- SearchQuery: `f"{stars_min}"` and `f"{stars_max}"` raise `ValueError` for a bound of more than 4300 digits; the model builds the query for every integer bound.
- RepositoryRecord: `datetime.now() - timedelta(days=days)` raises `OverflowError` when the `activity_limit` window moves the date outside years 1 to 9999 (about 740000 days back from today) or exceeds the range of `timedelta`; every owner lookup then raises in Python, while the model returns the summary. `Contributions` and `GetUserContributions` share this gap.
- An events body that is a JSON object raises `TypeError` in the model. In Python, slicing a dict raises `TypeError` before 3.12 and `KeyError` from 3.12 on. Numbers, booleans, `null` and non-empty strings raise `TypeError` in both, as the model does. An empty string gives the empty summary.
- `ScrapeRepositories` returns the list's value. It does not model that the returned list is the same object as `self.results`.
- `GetRepository` builds the enriched record as a new value rather than mutating the fetched dict in place. No other reference to that dict exists in the modelled code.
- Response dicts from the transport are not required to have unique keys; lookups use the first entry with a key.
