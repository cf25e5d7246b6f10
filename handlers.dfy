/** The scraper's response handlers, which pull a payload and a continuation token out of one
    decoded API response, and `parse_wiki_page`. A handler's `(contin, results)` pair is a
    `Handled` value; a token of `JNull` is Python's None and ends the continuation loop. */
module Handlers {
  import opened Wrappers
  import opened Json

  datatype Handled = Handled(contin: Json, payload: Json)

  /** `handle_category_pages_return`. */
  function HandleCategoryPagesReturn(j: Json): (r: Result<Handled>)
    ensures r.Ok? <==> Field(j, "query").Ok? && Field(Field(j, "query").value, "categorymembers").Ok?
                       && (Lookup(j.fields, "continue").Some? ==> Field(Field(j, "continue").value, "cmcontinue").Ok?)
    ensures r.Ok? ==> Field(j, "query").Ok? && Field(Field(j, "query").value, "categorymembers") == Ok(r.value.payload)
    ensures r.Ok? && Lookup(j.fields, "continue").None? ==> r.value.contin == JNull
    ensures r.Ok? && Lookup(j.fields, "continue").Some? ==> Field(Field(j, "continue").value, "cmcontinue") == Ok(r.value.contin)
  {
    var query :- Field(j, "query");
    var categoriesList :- Field(query, "categorymembers");
    match Contains(j, "continue")
    case Err(e) => Err(e)
    case Ok(hasContinue) =>
      if hasContinue then
        match Field(j, "continue")
        case Err(e) => Err(e)
        case Ok(cont) =>
          var contin :- Field(cont, "cmcontinue");
          Ok(Handled(contin, categoriesList))
      else
        Ok(Handled(JNull, categoriesList))
  }

  /** `[entry["title"] for entry in entries]`. */
  function TitlesOf(entries: seq<Json>): (r: Result<seq<Json>>)
    ensures r.Ok? <==> forall i :: 0 <= i < |entries| ==> Field(entries[i], "title").Ok?
    ensures r.Ok? ==> |r.value| == |entries|
    ensures r.Ok? ==> forall i :: 0 <= i < |entries| ==> Field(entries[i], "title") == Ok(r.value[i])
    ensures r.Err? ==> exists i :: 0 <= i < |entries| && Field(entries[i], "title") == Err(r.error)
                                   && forall k :: 0 <= k < i ==> Field(entries[k], "title").Ok?
  {
    if entries == [] then Ok([])
    else
      var title :- Field(entries[0], "title");
      var rest :- TitlesOf(entries[1..]);
      assert forall i :: 1 <= i < |entries| ==> entries[1..][i - 1] == entries[i];
      Ok([title] + rest)
  }

  /** `handle_wiki_pages_with_prefix_return`: never asks for another page. */
  function HandleWikiPagesWithPrefixReturn(j: Json): (r: Result<Handled>)
    ensures r.Ok? ==> r.value.contin == JNull && r.value.payload.JArr?
  {
    var query :- Field(j, "query");
    var titleListRaw :- Field(query, "allpages");
    var n :- Len(titleListRaw);
    if n > 0 then
      match Iterate(titleListRaw)
      case Err(e) => Err(e)
      case Ok(entries) =>
        var titleList :- TitlesOf(entries);
        Ok(Handled(JNull, JArr(titleList)))
    else
      Ok(Handled(JNull, JArr([])))
  }

  /** The prefix handler keeps one title per `allpages` entry, in the same order. */
  lemma WikiPagesWithPrefixTitles(j: Json, entries: seq<Json>)
    requires Field(j, "query").Ok? && Field(Field(j, "query").value, "allpages") == Ok(JArr(entries))
    ensures HandleWikiPagesWithPrefixReturn(j).Ok? <==> forall i :: 0 <= i < |entries| ==> Field(entries[i], "title").Ok?
    ensures HandleWikiPagesWithPrefixReturn(j).Ok? ==>
      var titles := HandleWikiPagesWithPrefixReturn(j).value.payload.items;
      |titles| == |entries| && forall i :: 0 <= i < |entries| ==> Field(entries[i], "title") == Ok(titles[i])
  {
  }

  /** `handle_wiki_data_return`: the `pages` object, and never another page. */
  function HandleWikiDataReturn(j: Json): (r: Result<Handled>)
    ensures r.Ok? <==> Field(j, "query").Ok? && Field(Field(j, "query").value, "pages").Ok?
    ensures r.Ok? ==> r.value == Handled(JNull, Field(Field(j, "query").value, "pages").value)
  {
    var query :- Field(j, "query");
    var pages :- Field(query, "pages");
    Ok(Handled(JNull, pages))
  }

  /** `parse_wiki_page`: the page's title for a page that has revisions, None otherwise. The
      content is looked up (and must be a string, as `re.sub` demands) but not kept. */
  function ParseWikiPage(page: Json): (r: Result<Json>)
    ensures page.JObj? && Lookup(page.fields, "revisions").None? ==> r == Ok(JNull)
    ensures Contains(page, "revisions") == Ok(false) ==> r == Ok(JNull)
    ensures Contains(page, "revisions") == Ok(true) && r.Ok? ==>
      Field(page, "title").Ok? && r.value == JObj([("origin_title", Field(page, "title").value)])
    ensures r.Ok? && r.value != JNull ==> Field(page, "title").Ok? && r.value == JObj([("origin_title", Field(page, "title").value)])
  {
    var hasRevisions :- Contains(page, "revisions");
    if hasRevisions then
      var revisions :- Field(page, "revisions");
      var revision :- Item(revisions, 0);
      var slots :- Field(revision, "slots");
      var main :- Field(slots, "main");
      var content :- Field(main, "*");
      var title :- Field(page, "title");
      if content.JStr? then Ok(JObj([("origin_title", title)])) else Err(TypeError)
    else
      Ok(JNull)
  }

  // Well-formed API responses, as the MediaWiki API sends them, for the round-trip lemmas.

  /** A `list=categorymembers` response carrying `members`, with a `continue` block iff `token` is given. */
  function CategoryResponse(members: seq<Json>, token: Option<string>): Json {
    var query := ("query", JObj([("categorymembers", JArr(members))]));
    match token
    case None => JObj([("batchcomplete", JStr("")), query])
    case Some(t) => JObj([("batchcomplete", JStr("")), ("continue", JObj([("cmcontinue", JStr(t)), ("continue", JStr("-||"))])), query])
  }

  /** The category handler returns the members unchanged and the `cmcontinue` token, if any. */
  lemma CategoryResponseRoundTrip(members: seq<Json>, token: Option<string>)
    ensures HandleCategoryPagesReturn(CategoryResponse(members, token))
         == Ok(Handled(if token.Some? then JStr(token.value) else JNull, JArr(members)))
  {
    var j := CategoryResponse(members, token);
    var fs := j.fields;
    assert Lookup(fs, "query") == Some(JObj([("categorymembers", JArr(members))]));
    if token.Some? {
      assert fs[..|fs| - 1] == fs[..2];
      assert Lookup(fs[..2], "continue") == Some(fs[1].1);
      assert Lookup(fs, "continue") == Some(fs[1].1);
      var cfs := fs[1].1.fields;
      assert cfs[..|cfs| - 1] == cfs[..1];
      assert Lookup(cfs[..1], "cmcontinue") == Some(JStr(token.value));
      assert Lookup(cfs, "cmcontinue") == Some(JStr(token.value));
    } else {
      assert fs[..|fs| - 1] == fs[..1];
      assert Lookup(fs[..1], "continue") == Lookup([], "continue");
    }
  }

  /** An `allpages` entry. */
  function PageEntry(namespaceId: int, title: string): Json {
    JObj([("pageid", JNum(0)), ("ns", JNum(namespaceId)), ("title", JStr(title))])
  }

  /** A `list=allpages` response listing the given titles. */
  function PrefixResponse(namespaceId: int, titles: seq<string>): Json {
    JObj([("batchcomplete", JStr("")),
          ("query", JObj([("allpages", JArr(seq(|titles|, i requires 0 <= i < |titles| => PageEntry(namespaceId, titles[i]))))]))])
  }

  /** The prefix handler gives back exactly the listed titles, in order, and no token. */
  lemma PrefixResponseRoundTrip(namespaceId: int, titles: seq<string>)
    ensures HandleWikiPagesWithPrefixReturn(PrefixResponse(namespaceId, titles))
         == Ok(Handled(JNull, JArr(seq(|titles|, i requires 0 <= i < |titles| => JStr(titles[i])))))
  {
    var entries := seq(|titles|, i requires 0 <= i < |titles| => PageEntry(namespaceId, titles[i]));
    WikiPagesWithPrefixTitles(PrefixResponse(namespaceId, titles), entries);
    var r := HandleWikiPagesWithPrefixReturn(PrefixResponse(namespaceId, titles));
    assert r.Ok?;
    assert r.value.payload.items == seq(|titles|, i requires 0 <= i < |titles| => JStr(titles[i]));
  }

  /** A page of a `prop=revisions` response, with one revision whose main slot holds `content`. */
  function PageWithRevision(title: string, content: string): Json {
    JObj([("pageid", JNum(0)), ("ns", JNum(0)), ("title", JStr(title)),
          ("revisions", JArr([JObj([("slots", JObj([("main", JObj([("contentmodel", JStr("wikitext")), ("*", JStr(content))]))]))])]))])
  }

  /** A page that exists yields its title; a missing page (no revisions) yields None. */
  lemma ParseWikiPageRoundTrip(title: string, content: string)
    ensures ParseWikiPage(PageWithRevision(title, content)) == Ok(JObj([("origin_title", JStr(title))]))
    ensures ParseWikiPage(JObj([("ns", JNum(0)), ("title", JStr(title)), ("missing", JStr(""))])) == Ok(JNull)
  {
    var page := PageWithRevision(title, content);
    var fs := page.fields;
    assert Lookup(fs, "revisions") == Some(fs[3].1);
    assert fs[..3][..2] == fs[..2];
    assert Lookup(fs[..3], "title") == Some(JStr(title));
    assert Lookup(fs, "title") == Some(JStr(title));
    var main := JObj([("contentmodel", JStr("wikitext")), ("*", JStr(content))]);
    assert Lookup(main.fields, "*") == Some(JStr(content));
    var missing := JObj([("ns", JNum(0)), ("title", JStr(title)), ("missing", JStr(""))]);
    assert missing.fields[..2][..1] == missing.fields[..1];
    assert Lookup(missing.fields, "revisions") == None;
  }

  /** A `prop=revisions` response whose `pages` object is `pages`. */
  function DataResponse(pages: seq<(string, Json)>): Json {
    JObj([("batchcomplete", JStr("")), ("query", JObj([("pages", JObj(pages))]))])
  }

  /** The page-content handler returns the `pages` object unchanged, and no token. */
  lemma DataResponseRoundTrip(pages: seq<(string, Json)>)
    ensures HandleWikiDataReturn(DataResponse(pages)) == Ok(Handled(JNull, JObj(pages)))
  {
    var j := DataResponse(pages);
    assert Lookup(j.fields, "query") == Some(JObj([("pages", JObj(pages))]));
    assert Lookup([("pages", JObj(pages))], "pages") == Some(JObj(pages));
  }
}
