/** The Giant Bomb side of goties_bot (goties_bot/gb_query.py): the year filter,
    the query URI, the sort field chosen for each pick method, and the two
    fetches that pick games at a random offset. The HTTP call itself is the
    `fetch` function of a `Catalog`, and every `random.choice` of the source is
    an explicit parameter whose range is a precondition. */
module GbQuery {
  import opened Wrappers
  import opened Decimal
  import opened Strings

  const GbBaseUrl := "http://www.giantbomb.com/api/"
  const GbGamesUrl := GbBaseUrl + "games/?format=json"

  /** How many games make up a list. */
  const NumberGoties := 10

  const ReleaseDateField := "original_release_date"
  const YearStart := "-1-1 00:00:00|"
  const YearEnd := "-12-31 23:59:59"

  // ---------------------------------------------------------------------------
  // Year filter

  /** A release-date range covering the whole of `year`, first to last second. */
  function YearFilterFromYear(year: nat): (f: string)
    ensures StartsWith(f, ReleaseDateField + ":" + Dec(year) + YearStart)
    ensures EndsWith(f, "|" + Dec(year) + YearEnd)
    ensures |f| == |ReleaseDateField + ":" + Dec(year) + YearStart| + |Dec(year) + YearEnd|
  {
    var f := ReleaseDateField + ":" + Dec(year) + YearStart + Dec(year) + YearEnd;
    assert f == (ReleaseDateField + ":" + Dec(year) + YearStart) + (Dec(year) + YearEnd);
    assert f == (ReleaseDateField + ":" + Dec(year) + "-1-1 00:00:00") + ("|" + Dec(year) + YearEnd);
    f
  }

  /** Reads the year back from the upper bound of a year filter. */
  function YearOfFilter(f: string): Option<nat> {
    if !EndsWith(f, YearEnd) then None
    else
      var digits := TrailingDigits(f[..|f| - |YearEnd|]);
      if digits == [] then None else Some(DecValue(digits))
  }

  lemma YearFilterRoundTrip(year: nat)
    ensures YearOfFilter(YearFilterFromYear(year)) == Some(year)
  {
    var f := YearFilterFromYear(year);
    var p := ReleaseDateField + ":" + Dec(year) + YearStart;
    assert f == p + Dec(year) + YearEnd;
    assert f[..|f| - |YearEnd|] == p + Dec(year);
    assert p[|p| - 1] == '|';
    DecDigits(year);
    TrailingDigitsAfter(p, Dec(year));
    DecRoundTrip(year);
  }

  /** The filter depends on the year alone and tells years apart. */
  lemma YearFilterInjective(a: nat, b: nat)
    ensures YearFilterFromYear(a) == YearFilterFromYear(b) <==> a == b
  {
    YearFilterRoundTrip(a);
    YearFilterRoundTrip(b);
  }

  // ---------------------------------------------------------------------------
  // Query URI

  /** How an f-string prints `sort_field`: the field itself, or `None` when omitted. */
  function SortText(sortField: Option<string>): string {
    match sortField
    case None => "None"
    case Some(f) => f
  }

  /** The fixed part of every query: games URL, API key and filter. */
  function QueryHead(apiKey: string, filter: string): string {
    GbGamesUrl + "&api_key=" + apiKey + "&filter=" + filter
  }

  /** The sort, limit and offset parameters, in that order. */
  function QueryParams(sortField: Option<string>, limit: nat, offset: nat): string {
    "&sort=" + SortText(sortField) + "&limit=" + Dec(limit) + "&offset=" + Dec(offset)
  }

  /** `get_query_uri`: the parameters always come in the order api_key, filter,
      sort, limit, offset, after the games URL. */
  function QueryUri(apiKey: string, filter: string, sortField: Option<string>, limit: nat, offset: nat): (u: string)
    ensures StartsWith(u, QueryHead(apiKey, filter))
    ensures EndsWith(u, QueryParams(sortField, limit, offset))
    ensures |u| == |QueryHead(apiKey, filter)| + |QueryParams(sortField, limit, offset)|
  {
    var head := QueryHead(apiKey, filter);
    var u := head + "&sort=" + SortText(sortField) + "&limit=" + Dec(limit) + "&offset=" + Dec(offset);
    Regroup(head, "&sort=", SortText(sortField), "&limit=", Dec(limit), "&offset=", Dec(offset));
    EndsWithAppended(head, QueryParams(sortField, limit, offset));
    assert u[..|head|] == head;
    u
  }

  lemma Regroup(a: string, b: string, c: string, d: string, e: string, f: string, g: string)
    ensures a + b + c + d + e + f + g == a + (b + c + d + e + f + g)
  {
  }

  lemma EndsWithAppended(x: string, suffix: string)
    ensures EndsWith(x + suffix, suffix)
  {
    assert (x + suffix)[|x|..] == suffix;
  }

  /** Splits `x + key + digits` into `x` and the number the digits spell. */
  function StripParam(u: string, key: string): Option<(string, nat)> {
    var digits := TrailingDigits(u);
    var rest := u[..|u| - |digits|];
    if digits == [] || !EndsWith(rest, key) then None
    else Some((rest[..|rest| - |key|], DecValue(digits)))
  }

  /** Reads limit and offset back from the end of a query URI. */
  function TailParams(u: string): Option<(nat, nat)> {
    match StripParam(u, "&offset=")
    case None => None
    case Some((rest, offset)) =>
      match StripParam(rest, "&limit=")
      case None => None
      case Some((_, limit)) => Some((limit, offset))
  }

  lemma StripParamOf(x: string, key: string, n: nat)
    requires |key| > 0 && key[|key| - 1] == '='
    ensures StripParam(x + key + Dec(n), key) == Some((x, n))
  {
    var b := x + key;
    var u := b + Dec(n);
    assert b[|b| - 1] == '=';
    DecDigits(n);
    TrailingDigitsAfter(b, Dec(n));
    assert u[..|u| - |Dec(n)|] == b;
    EndsWithAppended(x, key);
    assert b[..|b| - |key|] == x;
    DecRoundTrip(n);
  }

  /** Any URI ending in limit and offset parameters has them read back. */
  lemma TailParse(x: string, limit: nat, offset: nat)
    ensures TailParams(x + "&limit=" + Dec(limit) + "&offset=" + Dec(offset)) == Some((limit, offset))
  {
    StripParamOf(x + "&limit=" + Dec(limit), "&offset=", offset);
    StripParamOf(x, "&limit=", limit);
  }

  lemma QueryUriTail(apiKey: string, filter: string, sortField: Option<string>, limit: nat, offset: nat)
    ensures TailParams(QueryUri(apiKey, filter, sortField, limit, offset)) == Some((limit, offset))
  {
    TailParse(QueryHead(apiKey, filter) + "&sort=" + SortText(sortField), limit, offset);
  }

  lemma DefaultParams()
    ensures QueryParams(None, 1, 0) == "&sort=None&limit=1&offset=0"
  {
    SmallDecimals();
    assert "&sort=" + "None" + "&limit=" + "1" + "&offset=" + "0" == "&sort=None&limit=1&offset=0";
  }

  lemma SmallDecimals()
    ensures Dec(0) == "0" && Dec(1) == "1"
  {
  }

  /** `get_count`'s query: every default of `get_query_uri`. */
  function CountUri(apiKey: string, filter: string): string {
    QueryUri(apiKey, filter, None, 1, 0)
  }

  lemma CountUriDefaults(apiKey: string, filter: string)
    ensures EndsWith(CountUri(apiKey, filter), "&sort=None&limit=1&offset=0")
    ensures TailParams(CountUri(apiKey, filter)) == Some((1, 0))
  {
    QueryUriTail(apiKey, filter, None, 1, 0);
    DefaultParams();
  }

  // ---------------------------------------------------------------------------
  // Pick methods and sort fields

  /** `PickMethods`: the ways a list can be picked, with the enum's values. */
  datatype PickMethod = Chronological | Random | Added | LastUpdated | NumUserReviews | GbId
  {
    function Value(): int {
      match this
      case Chronological => 100
      case Random => 200
      case Added => 300
      case LastUpdated => 400
      case NumUserReviews => 500
      case GbId => 700
    }
  }

  /** `list(PickMethods)`, in declaration order. */
  const AllPickMethods: seq<PickMethod> := [Chronological, Random, Added, LastUpdated, NumUserReviews, GbId]

  lemma AllPickMethodsListed(m: PickMethod)
    ensures m in AllPickMethods
    ensures forall i, j :: 0 <= i < j < |AllPickMethods| ==>
      AllPickMethods[i] != AllPickMethods[j] && AllPickMethods[i].Value() != AllPickMethods[j].Value()
  {
  }

  /** The coin flip: heads sorts ascending, tails descending. */
  function Order(heads: bool): (o: string)
    ensures o == "asc" <==> heads
    ensures o == "desc" <==> !heads
  {
    if heads then "asc" else "desc"
  }

  /** The catalog field each ordered method sorts by; the random method sorts by none. */
  function FieldName(m: PickMethod): Option<string> {
    match m
    case Chronological => Some("original_release_date")
    case Added => Some("date_added")
    case LastUpdated => Some("date_last_updated")
    case NumUserReviews => Some("number_of_user_reviews")
    case GbId => Some("id")
    case Random => None
  }

  /** The `sort_field` that `get_goties` hands to `handle_offset_get`. */
  function SortField(m: PickMethod, heads: bool): (s: Option<string>)
    ensures s.None? <==> m == Random
  {
    match FieldName(m)
    case None => None
    case Some(field) => Some(field + ": " + Order(heads))
  }

  function MethodOfField(field: string): Option<PickMethod> {
    if field == "original_release_date" then Some(Chronological)
    else if field == "date_added" then Some(Added)
    else if field == "date_last_updated" then Some(LastUpdated)
    else if field == "number_of_user_reviews" then Some(NumUserReviews)
    else if field == "id" then Some(GbId)
    else None
  }

  function WithOrder(m: Option<PickMethod>, heads: bool): Option<(PickMethod, bool)> {
    match m
    case None => None
    case Some(m) => Some((m, heads))
  }

  /** Reads the method and the coin flip back from a sort field. */
  function ParseSortField(s: string): Option<(PickMethod, bool)> {
    if EndsWith(s, ": asc") then WithOrder(MethodOfField(s[..|s| - |": asc"|]), true)
    else if EndsWith(s, ": desc") then WithOrder(MethodOfField(s[..|s| - |": desc"|]), false)
    else None
  }

  lemma MethodOfFieldName(m: PickMethod)
    requires m != Random
    ensures MethodOfField(FieldName(m).value) == Some(m)
  {
  }

  lemma ParseAsc(field: string)
    ensures ParseSortField(field + ": asc") == WithOrder(MethodOfField(field), true)
  {
    var s := field + ": asc";
    EndsWithAppended(field, ": asc");
    assert s[..|s| - |": asc"|] == field;
  }

  lemma ParseDesc(field: string)
    ensures ParseSortField(field + ": desc") == WithOrder(MethodOfField(field), false)
  {
    var s := field + ": desc";
    assert s[|s| - 5] == ' ';
    assert !EndsWith(s, ": asc");
    EndsWithAppended(field, ": desc");
    assert s[..|s| - |": desc"|] == field;
  }

  lemma ParseOrder(field: string, heads: bool)
    ensures ParseSortField(field + ": " + Order(heads)) == WithOrder(MethodOfField(field), heads)
  {
    if heads {
      assert field + ": " + Order(heads) == field + ": asc";
      ParseAsc(field);
    } else {
      assert field + ": " + Order(heads) == field + ": desc";
      ParseDesc(field);
    }
  }

  lemma SortFieldRoundTrip(m: PickMethod, heads: bool)
    requires m != Random
    ensures ParseSortField(SortField(m, heads).value) == Some((m, heads))
  {
    ParseOrder(FieldName(m).value, heads);
    MethodOfFieldName(m);
  }

  /** The five ordered methods and two orders give ten different sort fields. */
  lemma SortFieldsDistinct(m1: PickMethod, h1: bool, m2: PickMethod, h2: bool)
    requires m1 != Random && m2 != Random
    ensures SortField(m1, h1) == SortField(m2, h2) <==> m1 == m2 && h1 == h2
  {
    SortFieldRoundTrip(m1, h1);
    SortFieldRoundTrip(m2, h2);
  }

  // ---------------------------------------------------------------------------
  // The catalog and the fetches

  /** A game as the catalog returns it; `image` is `None` where the JSON has null. */
  datatype Game = Game(name: string, image: Option<map<string, string>>)

  /** The part of the catalog's JSON response the bot reads. */
  datatype Response = Response(numberOfTotalResults: nat, results: seq<Game>)

  /** The API key and the (rate-limited) GET that `perform_gb_query` performs. */
  datatype Catalog = Catalog(apiKey: string, fetch: string -> Response)

  datatype Error =
    | EmptyChoice          // `random.choice` on an empty range
    | IndexOutOfRange      // `goties[i]` past the end of the list
    | TypeError            // `goties[i]["name"]` on a list

  /** The placeholder for an offset that returned no game. */
  const VideoGames := Game("Video Games", None)

  /** `get_count`: how many games the catalog knows for the filter. */
  function GetCount(c: Catalog, filter: string): nat {
    c.fetch(CountUri(c.apiKey, filter)).numberOfTotalResults
  }

  /** A string made of exactly a given prefix and a given suffix is their concatenation. */
  lemma Abutting(u: string, prefix: string, suffix: string)
    requires StartsWith(u, prefix) && EndsWith(u, suffix)
    requires |u| == |prefix| + |suffix|
    ensures u == prefix + suffix
  {
    assert u == u[..|prefix|] + u[|prefix|..];
  }

  /** `get_count` is the `number_of_total_results` the catalog answers to the
      query made of the filter and every default: no sort, limit 1, offset 0. */
  lemma GetCountOfDefaultQuery(c: Catalog, filter: string, u: string)
    requires StartsWith(u, QueryHead(c.apiKey, filter))
    requires EndsWith(u, "&sort=None&limit=1&offset=0")
    requires |u| == |QueryHead(c.apiKey, filter)| + |"&sort=None&limit=1&offset=0"|
    ensures GetCount(c, filter) == c.fetch(u).numberOfTotalResults
  {
    var head := QueryHead(c.apiKey, filter);
    var cu := CountUri(c.apiKey, filter);
    DefaultParams();
    Abutting(u, head, "&sort=None&limit=1&offset=0");
    Abutting(cu, head, QueryParams(None, 1, 0));
  }

  /** The query `handle_offset_get` issues: NumberGoties games from `offset` on. */
  function OffsetQueryUri(apiKey: string, filter: string, sortField: string, offset: nat): string {
    QueryUri(apiKey, filter, Some(sortField), NumberGoties, offset)
  }

  lemma OffsetQueryUriParams(apiKey: string, filter: string, sortField: string, offset: nat)
    ensures TailParams(OffsetQueryUri(apiKey, filter, sortField, offset)) == Some((NumberGoties, offset))
    ensures EndsWith(OffsetQueryUri(apiKey, filter, sortField, offset), QueryParams(Some(sortField), NumberGoties, offset))
  {
    QueryUriTail(apiKey, filter, Some(sortField), NumberGoties, offset);
  }

  /** `handle_offset_get`. `offset` is the draw from `range(0, count - NumberGoties)`;
      with no game past the first NumberGoties that range is empty and the draw fails. */
  function HandleOffsetGet(c: Catalog, filter: string, sortField: string, count: nat, offset: nat): (r: Result<seq<Game>, Error>)
    requires count > NumberGoties ==> offset < count - NumberGoties
    ensures r.Err? <==> count <= NumberGoties
    ensures r.Err? ==> r.error == EmptyChoice
    ensures r.Ok? ==> offset + NumberGoties < count
    ensures r.Ok? ==> r.value == c.fetch(OffsetQueryUri(c.apiKey, filter, sortField, offset)).results
  {
    if count <= NumberGoties then Err(EmptyChoice)
    else Ok(c.fetch(OffsetQueryUri(c.apiKey, filter, sortField, offset)).results)
  }

  /** The query `get_random_game` issues: one game at `offset`, unsorted. */
  function RandomGameUri(apiKey: string, filter: string, offset: nat): string {
    QueryUri(apiKey, filter, None, 1, offset)
  }

  lemma RandomGameUriParams(apiKey: string, filter: string, offset: nat)
    ensures TailParams(RandomGameUri(apiKey, filter, offset)) == Some((1, offset))
    ensures EndsWith(RandomGameUri(apiKey, filter, offset), QueryParams(None, 1, offset))
  {
    QueryUriTail(apiKey, filter, None, 1, offset);
  }

  /** What `random.choice(resp["results"])` may draw: an index into a non-empty list. */
  predicate PickFits(results: seq<Game>, pick: nat) {
    results != [] ==> pick < |results|
  }

  /** The two draws of one `get_random_game` call are in range. */
  predicate RandomDrawFits(c: Catalog, filter: string, count: nat, offset: nat, pick: nat) {
    count > 0 ==> offset < count && PickFits(c.fetch(RandomGameUri(c.apiKey, filter, offset)).results, pick)
  }

  /** `get_random_game`, with the fallback as a game rather than a list (see
      GetRandomGameAsWritten). `offset` is the draw from `range(count)`, `pick` the
      draw from the results. */
  function GetRandomGame(c: Catalog, filter: string, count: nat, offset: nat, pick: nat): (r: Result<Game, Error>)
    requires RandomDrawFits(c, filter, count, offset, pick)
    ensures r.Err? <==> count == 0
    ensures r.Err? ==> r.error == EmptyChoice
    ensures r.Ok? ==> offset < count
    ensures r.Ok? ==> var results := c.fetch(RandomGameUri(c.apiKey, filter, offset)).results;
      (results != [] ==> r.value in results) && (results == [] ==> r.value == VideoGames)
  {
    if count == 0 then Err(EmptyChoice)
    else
      var results := c.fetch(RandomGameUri(c.apiKey, filter, offset)).results;
      if results == [] then Ok(VideoGames) else Ok(results[pick])
  }

  /** A value of `get_random_game` as the source returns it: a game, or a list. */
  datatype Returned = Item(game: Game) | List(items: seq<Game>)

  /** `get_random_game` as written: the fallback is the one-element list
      `[{"name": "Video Games"}]`. */
  function GetRandomGameAsWritten(c: Catalog, filter: string, count: nat, offset: nat, pick: nat): (r: Result<Returned, Error>)
    requires RandomDrawFits(c, filter, count, offset, pick)
    ensures r.Err? <==> count == 0
    ensures r.Err? ==> r.error == EmptyChoice
    ensures r.Ok? ==> var results := c.fetch(RandomGameUri(c.apiKey, filter, offset)).results;
      (results != [] ==> r.value.Item? && r.value.game in results) &&
      (results == [] ==> r.value == List([VideoGames]))
  {
    if count == 0 then Err(EmptyChoice)
    else
      var results := c.fetch(RandomGameUri(c.apiKey, filter, offset)).results;
      if results == [] then Ok(List([VideoGames])) else Ok(Item(results[pick]))
  }

  /** `goty["name"]`: a list cannot be indexed by a string. */
  function NameOf(v: Returned): (r: Result<string, Error>)
    ensures r.Ok? <==> v.Item?
    ensures v.Item? ==> r == Ok(v.game.name)
    ensures v.List? ==> r == Err(TypeError)
  {
    match v
    case Item(g) => Ok(g.name)
    case List(_) => Err(TypeError)
  }

  /** As written, an offset with no result makes the list unrenderable; the
      corrected fallback always has a name. */
  lemma EmptyResultsBreakRendering(c: Catalog, filter: string, count: nat, offset: nat, pick: nat)
    requires RandomDrawFits(c, filter, count, offset, pick)
    requires count > 0 && c.fetch(RandomGameUri(c.apiKey, filter, offset)).results == []
    ensures GetRandomGameAsWritten(c, filter, count, offset, pick).Ok?
    ensures NameOf(GetRandomGameAsWritten(c, filter, count, offset, pick).value) == Err(TypeError)
    ensures GetRandomGame(c, filter, count, offset, pick) == Ok(VideoGames)
  {
  }
}
