/** The body of `get_goties` (goties_bot/gb_query.py): build the list of games,
    render it as text, and find the first cover image. */
module Goties {
  import opened Wrappers
  import opened Decimal
  import opened GbQuery

  // ---------------------------------------------------------------------------
  // The random method: NumberGoties independent picks

  /** The `for _ in range(NUMBER_GOTIES)` loop of the random method: one
      `get_random_game` call per slot, appended in call order. */
  method PickAtRandom(c: Catalog, filter: string, count: nat, offsets: seq<nat>, picks: seq<nat>)
    returns (r: Result<seq<Game>, Error>)
    requires |offsets| == NumberGoties && |picks| == NumberGoties
    requires forall i :: 0 <= i < NumberGoties ==> RandomDrawFits(c, filter, count, offsets[i], picks[i])
    ensures r.Err? <==> count == 0
    ensures r.Ok? ==> |r.value| == NumberGoties
    ensures r.Ok? ==> forall i :: 0 <= i < NumberGoties ==>
      GetRandomGame(c, filter, count, offsets[i], picks[i]) == Ok(r.value[i])
  {
    var goties: seq<Game> := [];
    for i := 0 to NumberGoties
      invariant |goties| == i
      invariant i > 0 ==> count > 0
      invariant forall j :: 0 <= j < i ==> GetRandomGame(c, filter, count, offsets[j], picks[j]) == Ok(goties[j])
    {
      var goty := GetRandomGame(c, filter, count, offsets[i], picks[i]);
      if goty.Err? {
        return Err(goty.error);
      }
      ghost var done := goties;
      goties := goties + [goty.value];
      assert forall j :: 0 <= j < i ==> goties[j] == done[j];
    }
    return Ok(goties);
  }

  // ---------------------------------------------------------------------------
  // Text rendering

  function HeaderLine(year: nat): string {
    "Game of the Year List for " + Dec(year)
  }

  function RankLine(rank: nat, name: string): string {
    Dec(rank) + ". " + name
  }

  /** The lines for `names`, numbered from `rank` on, each ending in a newline. */
  function NumberedLines(names: seq<string>, rank: nat): string
    decreases |names|
  {
    if names == [] then "" else RankLine(rank, names[0]) + "\n" + NumberedLines(names[1..], rank + 1)
  }

  /** The whole text: a header line, then one numbered line per name. */
  function GotyText(year: nat, names: seq<string>): string {
    HeaderLine(year) + "\n" + NumberedLines(names, 1)
  }

  function Names(goties: seq<Game>): (names: seq<string>)
    ensures |names| == |goties|
    ensures forall i :: 0 <= i < |goties| ==> names[i] == goties[i].name
  {
    seq(|goties|, i requires 0 <= i < |goties| => goties[i].name)
  }

  lemma {:induction false} NumberedLinesSnoc(names: seq<string>, name: string, rank: nat)
    ensures NumberedLines(names + [name], rank) == NumberedLines(names, rank) + RankLine(rank + |names|, name) + "\n"
    decreases |names|
  {
    if names == [] {
      assert [name][1..] == [];
    } else {
      var first, last := RankLine(rank, names[0]) + "\n", RankLine(rank + |names|, name) + "\n";
      assert (names + [name])[0] == names[0];
      assert (names + [name])[1..] == names[1..] + [name];
      NumberedLinesSnoc(names[1..], name, rank + 1);
      calc {
        NumberedLines(names + [name], rank);
        first + NumberedLines(names[1..] + [name], rank + 1);
        first + (NumberedLines(names[1..], rank + 1) + last);
        (first + NumberedLines(names[1..], rank + 1)) + last;
        NumberedLines(names, rank) + last;
      }
    }
  }

  /** One more game adds its line after those of the earlier games. */
  lemma GotyTextPrefix(year: nat, goties: seq<Game>, i: nat)
    requires i < |goties|
    ensures GotyText(year, Names(goties[..i + 1])) == GotyText(year, Names(goties[..i])) + RankLine(i + 1, goties[i].name) + "\n"
  {
    var names := Names(goties[..i]);
    assert Names(goties[..i + 1]) == names + [goties[i].name];
    NumberedLinesSnoc(names, goties[i].name, 1);
  }

  /** The text of `get_goties`: the header, then `goties[i]["name"]` numbered
      i + 1 for i below NumberGoties; a list shorter than that raises IndexError. */
  method RenderText(year: nat, goties: seq<Game>) returns (r: Result<string, Error>)
    ensures r.Err? <==> |goties| < NumberGoties
    ensures r.Err? ==> r.error == IndexOutOfRange
    ensures r.Ok? ==> r.value == GotyText(year, Names(goties[..NumberGoties]))
  {
    var out := HeaderLine(year) + "\n";
    for i := 0 to NumberGoties
      invariant i <= |goties|
      invariant out == GotyText(year, Names(goties[..i]))
    {
      if i >= |goties| {
        return Err(IndexOutOfRange);
      }
      var name := goties[i].name;
      GotyTextPrefix(year, goties, i);
      out := out + RankLine(i + 1, name) + "\n";
    }
    return Ok(out);
  }

  /** Position of the first newline, or the length when there is none. */
  function NewlineIndex(s: string): (k: nat)
    ensures k <= |s|
  {
    if s == [] || s[0] == '\n' then 0 else 1 + NewlineIndex(s[1..])
  }

  /** Splits a text into its lines, as a reader of the rendered list would. */
  function SplitLines(s: string): seq<string>
    decreases |s|
  {
    if s == [] then []
    else
      var k := NewlineIndex(s);
      if k == |s| then [s] else [s[..k]] + SplitLines(s[k + 1..])
  }

  lemma {:induction false} NewlineIndexAfter(line: string, rest: string)
    requires '\n' !in line
    ensures NewlineIndex(line + "\n" + rest) == |line|
    decreases |line|
  {
    var s := line + "\n" + rest;
    if line != [] {
      assert s[0] == line[0];
      assert s[1..] == line[1..] + "\n" + rest;
      NewlineIndexAfter(line[1..], rest);
    }
  }

  lemma SplitLinesCons(line: string, rest: string)
    requires '\n' !in line
    ensures SplitLines(line + "\n" + rest) == [line] + SplitLines(rest)
  {
    var s := line + "\n" + rest;
    NewlineIndexAfter(line, rest);
    assert s[..|line|] == line;
    assert s[|line| + 1..] == rest;
  }

  lemma DecHasNoNewline(n: nat)
    ensures '\n' !in Dec(n)
  {
    DecDigits(n);
  }

  predicate NoNewlines(names: seq<string>) {
    forall i :: 0 <= i < |names| ==> '\n' !in names[i]
  }

  /** The numbered lines as separate strings, without their newlines. */
  function RankLines(names: seq<string>, rank: nat): (lines: seq<string>)
    ensures |lines| == |names|
    decreases |names|
  {
    if names == [] then [] else [RankLine(rank, names[0])] + RankLines(names[1..], rank + 1)
  }

  lemma {:induction false} RankLinesAt(names: seq<string>, rank: nat, i: nat)
    requires i < |names|
    ensures RankLines(names, rank)[i] == RankLine(rank + i, names[i])
    decreases i
  {
    if i > 0 {
      RankLinesAt(names[1..], rank + 1, i - 1);
    }
  }

  lemma {:induction false} NumberedLinesSplit(names: seq<string>, rank: nat)
    requires NoNewlines(names)
    ensures SplitLines(NumberedLines(names, rank)) == RankLines(names, rank)
    decreases |names|
  {
    if names != [] {
      DecHasNoNewline(rank);
      assert '\n' !in names[0];
      assert '\n' !in RankLine(rank, names[0]);
      SplitLinesCons(RankLine(rank, names[0]), NumberedLines(names[1..], rank + 1));
      assert NoNewlines(names[1..]) by {
        forall i | 0 <= i < |names[1..]| ensures '\n' !in names[1..][i] {
          assert names[1..][i] == names[i + 1];
        }
      }
      NumberedLinesSplit(names[1..], rank + 1);
    }
  }

  lemma GotyTextSplit(year: nat, names: seq<string>)
    requires NoNewlines(names)
    ensures SplitLines(GotyText(year, names)) == [HeaderLine(year)] + RankLines(names, 1)
  {
    DecHasNoNewline(year);
    assert '\n' !in HeaderLine(year);
    SplitLinesCons(HeaderLine(year), NumberedLines(names, 1));
    NumberedLinesSplit(names, 1);
  }

  /** The rendered text reads back as the header followed by exactly one line
      per name, numbered from 1, in list order. */
  lemma GotyTextLines(year: nat, names: seq<string>)
    requires NoNewlines(names)
    ensures |SplitLines(GotyText(year, names))| == |names| + 1
    ensures SplitLines(GotyText(year, names))[0] == HeaderLine(year)
    ensures forall i :: 0 <= i < |names| ==> SplitLines(GotyText(year, names))[i + 1] == RankLine(i + 1, names[i])
  {
    GotyTextSplit(year, names);
    var lines := SplitLines(GotyText(year, names));
    forall i | 0 <= i < |names| ensures lines[i + 1] == RankLine(i + 1, names[i]) {
      RankLinesAt(names, 1, i);
    }
  }

  // ---------------------------------------------------------------------------
  // Cover art

  /** A game whose image map exists and has a `medium_url`. */
  predicate HasCover(g: Game) {
    g.image.Some? && "medium_url" in g.image.value
  }

  /** The `medium_url` of the first game, in list order, that has one. */
  function FirstCoverUrl(goties: seq<Game>): Option<string>
    decreases |goties|
  {
    if goties == [] then None
    else if HasCover(goties[0]) then Some(goties[0].image.value["medium_url"])
    else FirstCoverUrl(goties[1..])
  }

  lemma {:induction false} FirstCoverUrlIsFirst(goties: seq<Game>)
    ensures FirstCoverUrl(goties).None? <==> forall i :: 0 <= i < |goties| ==> !HasCover(goties[i])
    ensures FirstCoverUrl(goties).Some? ==> exists i :: (0 <= i < |goties| && HasCover(goties[i]) &&
      FirstCoverUrl(goties).value == goties[i].image.value["medium_url"] &&
      forall j :: 0 <= j < i ==> !HasCover(goties[j]))
    decreases |goties|
  {
    if goties != [] && !HasCover(goties[0]) {
      FirstCoverUrlIsFirst(goties[1..]);
      if FirstCoverUrl(goties).Some? {
        var i :| 0 <= i < |goties[1..]| && HasCover(goties[1..][i]) &&
          FirstCoverUrl(goties[1..]).value == goties[1..][i].image.value["medium_url"] &&
          forall j :: 0 <= j < i ==> !HasCover(goties[1..][j]);
        assert HasCover(goties[i + 1]);
      } else {
        forall i | 0 <= i < |goties| ensures !HasCover(goties[i]) {
          if i > 0 { assert goties[i] == goties[1..][i - 1]; }
        }
      }
    } else if goties != [] {
      assert HasCover(goties[0]);
    }
  }

  /** The search loop of `get_goties`: skip games with no image, stop at the
      first image map with a `medium_url`. */
  method FindCoverUrl(goties: seq<Game>) returns (url: Option<string>)
    ensures url == FirstCoverUrl(goties)
  {
    url := None;
    var i := 0;
    while i < |goties|
      invariant 0 <= i <= |goties|
      invariant FirstCoverUrl(goties) == FirstCoverUrl(goties[i..])
      invariant url == None
    {
      assert goties[i..][1..] == goties[i + 1..];
      var imgDict := goties[i].image;
      if imgDict.None? {
        i := i + 1;
        continue;
      }
      if "medium_url" in imgDict.value {
        url := Some(imgDict.value["medium_url"]);
        break;
      }
      i := i + 1;
    }
  }

  // ---------------------------------------------------------------------------
  // One run

  /** What a run produces: the year, the ranked games, the rendered text, and the
      cover URL that is then downloaded. */
  datatype GotyList = GotyList(year: nat, goties: seq<Game>, text: string, coverUrl: Option<string>)

  /** The draws of one run are in range: the offset for an ordered method, the
      offsets and picks for the random one. */
  predicate DrawsFit(c: Catalog, year: nat, m: PickMethod, offset: nat, offsets: seq<nat>, picks: seq<nat>) {
    var filter := YearFilterFromYear(year);
    var count := GetCount(c, filter);
    |offsets| == NumberGoties && |picks| == NumberGoties &&
    if m == Random then forall i :: 0 <= i < NumberGoties ==> RandomDrawFits(c, filter, count, offsets[i], picks[i])
    else count > NumberGoties ==> offset < count - NumberGoties
  }

  /** The games an ordered method fetches. */
  function OrderedResults(c: Catalog, year: nat, m: PickMethod, heads: bool, offset: nat): seq<Game>
    requires m != Random
  {
    c.fetch(OffsetQueryUri(c.apiKey, YearFilterFromYear(year), SortField(m, heads).value, offset)).results
  }

  /** `get_goties`, with its random draws as parameters: `year` from
      1980..currentYear, `heads` the order's coin, `m` the method, `offset` the
      ordered methods' offset, `offsets` and `picks` the random method's draws. */
  method GetGoties(c: Catalog, currentYear: nat, year: nat, heads: bool, m: PickMethod,
                   offset: nat, offsets: seq<nat>, picks: seq<nat>) returns (r: Result<GotyList, Error>)
    requires 1980 <= year <= currentYear
    requires DrawsFit(c, year, m, offset, offsets, picks)
    ensures r.Ok? ==> r.value.year == year
    ensures r.Ok? ==> (|r.value.goties| >= NumberGoties &&
                       r.value.text == GotyText(year, Names(r.value.goties[..NumberGoties])))
    ensures r.Ok? ==> r.value.coverUrl == FirstCoverUrl(r.value.goties)
    ensures m == Random ==> (r.Err? <==> GetCount(c, YearFilterFromYear(year)) == 0)
    ensures m == Random && r.Ok? ==> (|r.value.goties| == NumberGoties &&
      forall i :: 0 <= i < NumberGoties ==>
        GetRandomGame(c, YearFilterFromYear(year), GetCount(c, YearFilterFromYear(year)), offsets[i], picks[i]) == Ok(r.value.goties[i]))
    ensures m != Random ==> (r.Err? <==>
      GetCount(c, YearFilterFromYear(year)) <= NumberGoties || |OrderedResults(c, year, m, heads, offset)| < NumberGoties)
    ensures m != Random && r.Ok? ==> r.value.goties == OrderedResults(c, year, m, heads, offset)
  {
    var filter := YearFilterFromYear(year);
    var count := GetCount(c, filter);
    var goties: seq<Game>;
    match SortField(m, heads) {
      case Some(sortField) =>
        var picked := HandleOffsetGet(c, filter, sortField, count, offset);
        if picked.Err? {
          return Err(picked.error);
        }
        goties := picked.value;
      case None =>
        var picked := PickAtRandom(c, filter, count, offsets, picks);
        if picked.Err? {
          return Err(picked.error);
        }
        goties := picked.value;
    }
    var out := RenderText(year, goties);
    if out.Err? {
      return Err(out.error);
    }
    var url := FindCoverUrl(goties);
    return Ok(GotyList(year, goties, out.value, url));
  }
}
