# goties_bot: a Dafny model of the "games of the year" picker

goties_bot posts a list of ten "games of the year" for a year between 1980 and
today. It asks the Giant Bomb API for the number of games released that year.
It then picks ten of them with one of six pick methods. Five methods sort the
catalog by a field, ascending or descending by a coin flip, and take ten games
from a random offset. The sixth fetches ten single games at independent random
offsets. The bot renders the list as text ("Game of the Year List for {year}"
plus ten numbered lines) and downloads the cover of the first game that has a
`medium_url` image.

The model covers the deterministic part of that pipeline:

- `decimal.dfy` (module `Decimal`): how Python prints a non-negative `int`, and
  reading such digits back.
- `gb_query.dfy` (module `GbQuery`): the year filter, the query URI, the sort
  field of each pick method, `get_count`'s query, `handle_offset_get` and
  `get_random_game`.
- `goties.dfy` (module `Goties`): the loops of `get_goties`. These are the list
  built by the random method, the rendered text and the cover search. The whole
  run is the method `GetGoties`.
- `strings.dfy` (module `Strings`): prefix and suffix tests on strings.
- `wrappers.dfy` (module `Wrappers`): `Option` and `Result`.

The HTTP request is the `fetch` field of a `Catalog` value: a function from
URI to `Response` (`number_of_total_results` and `results`). Every
`random.choice` of the source becomes a parameter with its range as a
precondition:

- the year, in 1980..current year;
- the order coin;
- the pick method;
- the ordered methods' offset;
- the random method's ten offsets and ten picks.

`datetime.today().year` becomes the parameter `currentYear`. An exception the
source raises becomes an `Err` value:

- `EmptyChoice`: `random.choice` on an empty range;
- `IndexOutOfRange`: `goties[i]` past the end of the list;
- `TypeError`: indexing a list by `"name"`.

Three things the code does not do, and so the model does not either:

- Ranks are not zero-padded: they are printed as `{i+1}.`.
- There is no caption, no curated year-end list, no resolution preference and
  no image downscaling.
- No run ends with a short list. With an ordered method, a year with at most
  ten games fails with `EmptyChoice`, and a page shorter than ten makes the
  rendering fail with `IndexOutOfRange`.

## Model

| member | source | states |
|---|---|---|
| `Decimal.DecRoundTrip` | goties_bot/gb_query.py:45 | the decimal text of a number (as an f-string prints a year, a limit, an offset or a rank) reads back as that number, so different numbers print differently |
| `GbQuery.YearFilterFromYear` | goties_bot/gb_query.py:42-47 | the filter begins `original_release_date:{Y}-1-1 00:00:00` and a bar, ends with a bar and `{Y}-12-31 23:59:59`, and is exactly as long as those two overlapping at the bar, so it is precisely the range from the first to the last second of year Y |
| `GbQuery.YearFilterRoundTrip` | goties_bot/gb_query.py:42-47 | the year can be read back from the filter's upper bound |
| `GbQuery.YearFilterInjective` | goties_bot/gb_query.py:42-47 | two filters are equal exactly when their years are: the filter depends on the year alone |
| `GbQuery.QueryUri` | goties_bot/gb_query.py:49-52 | the URI begins with the games URL, `&api_key=` and `&filter=`, and ends with `&sort=` (the field, or `None` when omitted), `&limit=` and `&offset=`, in that order, and is exactly as long as those two parts, so nothing lies between them |
| `GbQuery.QueryUriTail` | goties_bot/gb_query.py:49-52 | the limit and offset can be read back from the end of any query URI |
| `GbQuery.CountUriDefaults` | goties_bot/gb_query.py:54-56 | `get_count` queries with every default: the URI ends `&sort=None&limit=1&offset=0` |
| `GbQuery.GetCountOfDefaultQuery` | goties_bot/gb_query.py:54-59 | `get_count` is the `number_of_total_results` of the catalog's response to the URI made of the games URL, key and filter followed directly by `&sort=None&limit=1&offset=0` |
| `GbQuery.AllPickMethodsListed` | goties_bot/gb_query.py:194-202 | `list(PickMethods)` holds each of the six methods once, and their enum values are distinct |
| `GbQuery.Order` | goties_bot/gb_query.py:86-90 | the order is `asc` exactly when the coin is heads and `desc` exactly when it is tails |
| `GbQuery.SortField` | goties_bot/gb_query.py:94-123 | there is a sort field exactly for the five ordered methods, none for the random one |
| `GbQuery.SortFieldRoundTrip` | goties_bot/gb_query.py:95-123 | the method and the coin can be read back from the sort field `{field}: {order}` |
| `GbQuery.SortFieldsDistinct` | goties_bot/gb_query.py:95-123 | the five field names with two orders give ten different sort fields |
| `GbQuery.HandleOffsetGet` | goties_bot/gb_query.py:175-183 | fails with `EmptyChoice` exactly when the count is at most ten; otherwise the offset lies below count − 10 and the result is the `results` of the query for that offset |
| `GbQuery.OffsetQueryUriParams` | goties_bot/gb_query.py:177-181 | `handle_offset_get` queries with limit 10 at the drawn offset, sorted by the given field |
| `GbQuery.GetRandomGame` | goties_bot/gb_query.py:61-76 | fails with `EmptyChoice` exactly when the count is 0; otherwise the offset lies below the count, the game is one of the `results`, and it is the "Video Games" placeholder when the results are empty |
| `GbQuery.RandomGameUriParams` | goties_bot/gb_query.py:64-67 | `get_random_game` queries unsorted with limit 1 at the drawn offset |
| `GbQuery.GetRandomGameAsWritten` | goties_bot/gb_query.py:61-76 | the source's version: it fails with `EmptyChoice` exactly when the count is 0; otherwise it returns a game drawn from the `results` when there are any, and the one-element list `[{"name": "Video Games"}]` when there are none |
| `GbQuery.NameOf` | goties_bot/gb_query.py:134 | `goty["name"]` is the game's name on a game, and a `TypeError` on a list |
| `GbQuery.EmptyResultsBreakRendering` | goties_bot/gb_query.py:72-76 | with no result at the offset, the source's fallback has no name (a `TypeError` when rendered), while the corrected fallback is the game "Video Games" |
| `Goties.PickAtRandom` | goties_bot/gb_query.py:125-130 | fails exactly when the count is 0; otherwise it gives exactly ten games, game i being the result of the i-th `get_random_game` call |
| `Goties.NumberedLinesSnoc` | goties_bot/gb_query.py:133-135 | appending a name appends one line numbered after the earlier ones and leaves them unchanged |
| `Goties.RenderText` | goties_bot/gb_query.py:132-135 | fails with `IndexOutOfRange` exactly when the list has fewer than ten games; otherwise the text is the header and the first ten names, numbered in list order |
| `Goties.GotyTextLines` | goties_bot/gb_query.py:132-135 | when no name holds a newline, the text splits into exactly one header line `Game of the Year List for {year}` and one line `{i+1}. {name_i}` per name, in list order with no re-sorting |
| `Goties.FirstCoverUrlIsFirst` | goties_bot/gb_query.py:146-157 | there is no cover URL exactly when no game has an image map with `medium_url`; otherwise it is the `medium_url` of the first such game, every earlier game having none |
| `Goties.FindCoverUrl` | goties_bot/gb_query.py:146-157 | the search loop, with its `continue` and `break`, returns the cover URL of the first game that has one |
| `Goties.GetGoties` | goties_bot/gb_query.py:78-173 | a run that succeeds keeps its year, renders the first ten ranked games, and has the first cover URL among them. The random method (with the corrected fallback, see Findings) fails exactly when the year has no games and then ranks the ten `get_random_game` results in call order. An ordered method fails exactly when the year has at most ten games or the page holds fewer than ten, and ranks the page as fetched |

## Left out

- The HTTP GET, the JSON decoding and the status-code `print` of `perform_gb_query` are out: the network is the `fetch` function of a `Catalog`.
- `botskeleton.rate_limited(200)` is out. It only throttles calls in time.
- The cover download is out: the streamed GET and the chunk-writing loop. The model returns the URL that would be downloaded. This leaves out one quirk: on an empty chunk the loop's `return` makes `get_goties` return `None` instead of `(year, out)`.
- Drawing the text with PIL and saving `goties.png` and `goty.png` are out. They are a foreign library and file output.
- Reading `VERSION` and `SECRETS/API_KEY`, the user agent header and logging are out. The API key is the `apiKey` field of a `Catalog`.
- `random.choice` and `datetime.today()` are out. They are parameters whose ranges are preconditions.
- `goties_bot/__main__.py` is out. It is an endless posting loop around the bot library.
- `setup.py` is out. It holds packaging metadata only.
- `YearFilterFromYear`: years are naturals. Negative years, which Python would print with a sign, are not modelled. The only caller draws from 1980 onward.
- A game is only a name and an optional image map. Other JSON fields, a `null` or non-string name, a game dict without an `image` key (a `KeyError` in the cover loop), and an image map whose `medium_url` is `null` are not modelled. In the source such a map stops the cover search with `url = None`, so nothing is downloaded; the model's image map holds only strings and cannot express it.
- `HandleOffsetGet`: the offset is drawn from `range(0, count - 10)` as written. So the last full page, at offset count − 10, is never chosen.

## Findings

| source | as written | input that shows it | evidently intended | confidence | as-written member | corrected member |
|---|---|---|---|---|---|---|
| goties_bot/gb_query.py:76 | when the query at the drawn offset returns no results, `get_random_game` returns the list `[{"name": "Video Games"}]` instead of a game, so `goties[i]["name"]` at line 134 raises `TypeError` | random method, a year with a positive count, and an offset whose query returns an empty `results` | return the placeholder game `{"name": "Video Games", "image": None}` itself so the list renders with "Video Games" in that slot | high, not executed | `GbQuery.GetRandomGameAsWritten` with `GbQuery.EmptyResultsBreakRendering` | `GbQuery.GetRandomGame`, used by `Goties.PickAtRandom` and `Goties.GetGoties` (the random method then fails only when the count is 0) |
