/** The three MediaWiki API query builders of the scraper. Each is a string concatenation;
    `urllib.parse.quote_plus` is passed in as the parameter `quotePlus`. The lemmas read a
    built URL back into its `&`-separated parameters, which is what the server does with it. */
module Queries {
  import opened Wrappers
  import opened Strings
  import opened ListUtils

  const BaseUrl: string := "https://en.wikipedia.org/w/api.php?"

  /** The scraper asks for at most this many titles per page-content request. */
  const PageRequestLimit: nat := 50

  /** The `titles` argument of `get_wiki_data_query`: a list, or anything else (a single title). */
  datatype TitlesArg = TitleList(titles: seq<string>) | SingleTitle(title: string)

  /** `get_category_pages_query`. The URL is the base URL with `action=query`, then the
      parameters asking for the members of exactly that category and namespace, 500 at a
      time, as JSON, as the server splits it. */
  function GetCategoryPagesQuery(title: string, namespaceId: int, quotePlus: string -> string): (r: string)
    ensures '&' !in quotePlus(title) ==> Split(r, '&') == [
      BaseUrl + "action=query", "list=categorymembers", "cmtitle=" + quotePlus(title),
      "cmnamespace=" + IntToString(namespaceId), "format=json", "cmlimit=500"]
  {
    var action := "action=query";
    var content := "list=categorymembers";
    var dataformat := "format=json&cmlimit=500";
    var safeTitle := "cmtitle=" + quotePlus(title);
    var cmnamespace := "cmnamespace=" + IntToString(namespaceId);
    NoAmpersandInNumber(namespaceId);
    var url := BaseUrl + action + "&" + content + "&" + safeTitle + "&" + cmnamespace + "&" + dataformat;
    if '&' !in quotePlus(title) then
      ListParamsHaveNoAmpersand();
      SplitListQueryWith(content, dataformat, "cmlimit=500", safeTitle, cmnamespace);
      url
    else
      url
  }

  /** `get_wiki_pages_with_prefix_query`. The URL is the base URL with `action=query`, then
      the parameters listing the pages whose titles start with exactly that prefix in that
      namespace, 500 at a time, as JSON. */
  function GetWikiPagesWithPrefixQuery(prefix: string, namespaceId: int, quotePlus: string -> string): (r: string)
    ensures '&' !in quotePlus(prefix) ==> Split(r, '&') == [
      BaseUrl + "action=query", "list=allpages", "apprefix=" + quotePlus(prefix),
      "apnamespace=" + IntToString(namespaceId), "format=json", "aplimit=500"]
  {
    var action := "action=query";
    var content := "list=allpages";
    var dataformat := "format=json&aplimit=500";
    var apprefix := "apprefix=" + quotePlus(prefix);
    var apnamespace := "apnamespace=" + IntToString(namespaceId);
    NoAmpersandInNumber(namespaceId);
    var url := BaseUrl + action + "&" + content + "&" + apprefix + "&" + apnamespace + "&" + dataformat;
    if '&' !in quotePlus(prefix) then
      ListParamsHaveNoAmpersand();
      SplitListQueryWith(content, dataformat, "aplimit=500", apprefix, apnamespace);
      url
    else
      url
  }

  /** The `titlestring` of `get_wiki_data_query`: a list is joined with `|`, anything else is kept.
      The title string names exactly the given titles, in order, when no title contains `|`;
      a single title is passed through as it is. */
  function TitleString(titles: TitlesArg): (r: string)
    ensures titles.SingleTitle? ==> r == titles.title
    ensures titles.TitleList? && |titles.titles| >= 1 && (forall i :: 0 <= i < |titles.titles| ==> '|' !in titles.titles[i])
            ==> Split(r, '|') == titles.titles
    ensures titles.SingleTitle? && '|' !in titles.title ==> Split(r, '|') == [titles.title]
  {
    match titles
    case TitleList(ts) => Join(ts, '|')
    case SingleTitle(t) =>
      if '|' !in t then SplitNoSeparator(t, '|'); t else t
  }

  /** `get_wiki_data_query`. The URL is the base URL with `action=query`, then the
      parameters asking for the current revision content of the quoted title string, as JSON. */
  function GetWikiDataQuery(titles: TitlesArg, quotePlus: string -> string): (r: string)
    ensures '&' !in quotePlus(TitleString(titles)) ==> Split(r, '&') == [
      BaseUrl + "action=query", "prop=revisions", "rvprop=content", "rvslots=*",
      "titles=" + quotePlus(TitleString(titles)), "format=json"]
  {
    var titlestring := TitleString(titles);
    var action := "action=query";
    var content := "prop=revisions&rvprop=content&rvslots=*";
    var dataformat := "format=json";
    var safeTitle := "titles=" + quotePlus(titlestring);
    var url := BaseUrl + action + "&" + content + "&" + safeTitle + "&" + dataformat;
    if '&' !in quotePlus(titlestring) then
      SplitDataQueryWith(safeTitle);
      url
    else
      url
  }

  lemma NoAmpersandInNumber(n: int)
    ensures '&' !in IntToString(n)
  {
    var s := IntToString(n);
    forall i | 0 <= i < |s|
      ensures s[i] != '&'
    {
    }
  }

  lemma SplitTwo(x: string, y: string)
    requires '&' !in x && '&' !in y
    ensures Split(x + "&" + y, '&') == [x, y]
  {
    SplitAtSeparator(x, y, '&');
    SplitNoSeparator(x, '&');
    SplitNoSeparator(y, '&');
  }

  /** The shape shared by the two list queries: four `&`-free parts, then the format part,
      which itself holds two parameters. */
  lemma SplitListQuery(a: string, b: string, c: string, d: string, e: string, e1: string, e2: string)
    requires '&' !in a && '&' !in b && '&' !in c && '&' !in d
    requires e == e1 + "&" + e2 && '&' !in e1 && '&' !in e2
    ensures Split(a + "&" + b + "&" + c + "&" + d + "&" + e, '&') == [a, b, c, d, e1, e2]
  {
    SplitNoSeparator(a, '&');
    SplitNoSeparator(b, '&');
    SplitNoSeparator(c, '&');
    SplitNoSeparator(d, '&');
    SplitTwo(e1, e2);
    SplitAtSeparator(a, b, '&');
    SplitAtSeparator(a + "&" + b, c, '&');
    SplitAtSeparator(a + "&" + b + "&" + c, d, '&');
    SplitAtSeparator(a + "&" + b + "&" + c + "&" + d, e, '&');
  }

  /** The shape of the page-content query: its second part holds three parameters. */
  lemma SplitDataQuery(a: string, b: string, b1: string, b2: string, b3: string, c: string, d: string)
    requires '&' !in a && '&' !in c && '&' !in d
    requires b == b1 + "&" + b2 + "&" + b3 && '&' !in b1 && '&' !in b2 && '&' !in b3
    ensures Split(a + "&" + b + "&" + c + "&" + d, '&') == [a, b1, b2, b3, c, d]
  {
    SplitNoSeparator(a, '&');
    SplitNoSeparator(c, '&');
    SplitNoSeparator(d, '&');
    SplitTwo(b1, b2);
    SplitNoSeparator(b3, '&');
    SplitAtSeparator(b1 + "&" + b2, b3, '&');
    SplitAtSeparator(a, b, '&');
    SplitAtSeparator(a + "&" + b, c, '&');
    SplitAtSeparator(a + "&" + b + "&" + c, d, '&');
  }

  lemma RevisionsContentParts()
    ensures "prop=revisions&rvprop=content&rvslots=*" == "prop=revisions" + "&" + "rvprop=content" + "&" + "rvslots=*"
  {
  }

  lemma BaseHasNoAmpersand()
    ensures '&' !in BaseUrl + "action=query"
  {
  }

  lemma DataParamsHaveNoAmpersand()
    ensures '&' !in "prop=revisions" && '&' !in "rvprop=content" && '&' !in "rvslots=*" && '&' !in "format=json"
  {
  }

  lemma SplitDataQueryWith(c: string)
    requires '&' !in c
    ensures Split(BaseUrl + "action=query" + "&" + "prop=revisions&rvprop=content&rvslots=*" + "&" + c + "&" + "format=json", '&')
         == [BaseUrl + "action=query", "prop=revisions", "rvprop=content", "rvslots=*", c, "format=json"]
  {
    RevisionsContentParts();
    BaseHasNoAmpersand();
    DataParamsHaveNoAmpersand();
    SplitDataQuery(BaseUrl + "action=query", "prop=revisions&rvprop=content&rvslots=*",
      "prop=revisions", "rvprop=content", "rvslots=*", c, "format=json");
  }

  lemma ListParamsHaveNoAmpersand()
    ensures '&' !in "list=categorymembers" && '&' !in "list=allpages" && '&' !in "format=json"
    ensures '&' !in "cmlimit=500" && '&' !in "aplimit=500"
    ensures "format=json&cmlimit=500" == "format=json" + "&" + "cmlimit=500"
    ensures "format=json&aplimit=500" == "format=json" + "&" + "aplimit=500"
  {
  }

  /** A list query over `content` with the `&`-free parameters `c` and `d`, asking for the
      format and then `limit`, splits back into exactly those six parameters. */
  lemma SplitListQueryWith(content: string, e: string, limit: string, c: string, d: string)
    requires '&' !in content && '&' !in limit && '&' !in c && '&' !in d
    requires e == "format=json" + "&" + limit
    ensures Split(BaseUrl + "action=query" + "&" + content + "&" + c + "&" + d + "&" + e, '&')
         == [BaseUrl + "action=query", content, c, d, "format=json", limit]
  {
    BaseHasNoAmpersand();
    ListParamsHaveNoAmpersand();
    SplitListQuery(BaseUrl + "action=query", content, c, d, e, "format=json", limit);
  }

  /** The titles each batched request names, batch by batch. */
  function RequestedTitles(batches: seq<seq<string>>): seq<seq<string>> {
    if batches == [] then [] else [Split(TitleString(TitleList(batches[0])), '|')] + RequestedTitles(batches[1..])
  }

  /** Splitting the titles into batches of `PageRequestLimit` and building one request per
      batch asks for every title exactly once, in order, never more than the limit per request. */
  lemma {:induction false} BatchedRequestsCoverTitles(titles: seq<string>)
    requires forall i :: 0 <= i < |titles| ==> '|' !in titles[i]
    ensures Chunks(titles, PageRequestLimit).Ok?
    ensures forall b :: b in Chunks(titles, PageRequestLimit).value ==> 1 <= |b| <= PageRequestLimit
    ensures Flatten(RequestedTitles(Chunks(titles, PageRequestLimit).value)) == titles
  {
    ChunksBounded(titles, PageRequestLimit);
    CoverByInduction(titles);
  }

  lemma {:induction false} CoverByInduction(titles: seq<string>)
    requires forall i :: 0 <= i < |titles| ==> '|' !in titles[i]
    ensures Flatten(RequestedTitles(Chunked(titles, PageRequestLimit))) == titles
    decreases |titles|
  {
    var n := PageRequestLimit;
    if |titles| == 0 {
    } else if |titles| <= n {
      assert Chunked(titles, n) == [titles];
      assert RequestedTitles([titles]) == [titles] + RequestedTitles([]);
    } else {
      var head, tail := titles[..n], titles[n..];
      assert forall i :: 0 <= i < |head| ==> head[i] == titles[i];
      assert forall i :: 0 <= i < |tail| ==> tail[i] == titles[n + i];
      CoverByInduction(tail);
      var bs := Chunked(titles, n);
      assert bs == [head] + Chunked(tail, n);
      assert bs[1..] == Chunked(tail, n);
      assert RequestedTitles(bs) == [head] + RequestedTitles(Chunked(tail, n));
      assert titles == head + tail;
    }
  }
}
