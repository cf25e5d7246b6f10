/** `send_urlib_request_async` and `handle_queries`. The HTTP session and `json.loads` are
    outside the model: the decoded responses the server would send for one query are given
    as a `script`, consumed one per request, and the URLs requested are recorded. */
module Fetch {
  import opened Wrappers
  import opened Json
  import opened ListUtils
  import opened Handlers

  /** A response handler: a decoded response to `(contin, results)`, or the exception it raises. */
  type Handler = Json -> Result<Handled>

  /** The token the loop starts from; it is never sent to the server. */
  const InitialRun: string := "initial_run"

  /** What one call did: the value it returned (or raised) and the URLs it requested, in order. */
  datatype Fetched = Fetched(outcome: Result<Json>, requests: seq<string>)

  /** The URL of the next request: the bare query on the first run (and whenever there is no
      continuation parameter), otherwise the query, the parameter and the token. Concatenating
      a token that is not a string raises TypeError. */
  function NextQuery(query: string, param: Option<string>, contin: Json): (r: Result<string>)
    ensures param.None? ==> r == Ok(query)
    ensures contin == JStr(InitialRun) ==> r == Ok(query)
    ensures param.Some? && contin.JStr? && contin.s != InitialRun ==> r == Ok(query + param.value + contin.s)
    ensures r.Err? <==> param.Some? && contin != JStr(InitialRun) && !contin.JStr?
    ensures r.Err? ==> r.error == TypeError
  {
    if contin != JStr(InitialRun) && param.Some? then
      if contin.JStr? then Ok(query + param.value + contin.s) else Err(TypeError)
    else
      Ok(query)
  }

  /** `results += curr_results`: a list extended by whatever iterating the payload visits. */
  function Extend(results: Json, more: Json): (r: Result<Json>)
    ensures results.JArr? && Iterate(more).Ok? ==> r == Ok(JArr(results.items + Iterate(more).value))
    ensures r.Err? <==> !results.JArr? || Iterate(more).Err?
    ensures r.Err? ==> r.error == TypeError
  {
    if results.JArr? then
      var items :- Iterate(more);
      Ok(JArr(results.items + items))
    else
      Err(TypeError)
  }

  /** The loop from a given state onwards: `contin` and `results` as the Python variables,
      `requests` the URLs requested so far, `script` the responses not yet received. */
  function Pump(query: string, handler: Option<Handler>, param: Option<string>, script: seq<Json>,
                contin: Json, results: Json, requests: seq<string>): (r: Fetched)
    ensures |requests| <= |r.requests| <= |requests| + |script|
    ensures r.requests[..|requests|] == requests
    ensures contin == JStr(InitialRun) && |r.requests| > |requests| ==> r.requests[|requests|] == query
    decreases |script|
  {
    if contin == JNull then Fetched(Ok(results), requests)
    else
      match NextQuery(query, param, contin)
      case Err(e) => Fetched(Err(e), requests)
      case Ok(currQuery) =>
        if script == [] then Fetched(Err(ScriptExhausted), requests)
        else
          var response := script[0];
          var sent := requests + [currQuery];
          assert sent[..|requests|] == requests;
          assert sent[|requests|] == currQuery;
          match handler
          case None => Pump(query, handler, param, script[1..], JNull, response, sent)
          case Some(h) =>
            match h(response)
            case Err(e) => Fetched(Err(e), sent)
            case Ok(Handled(next, currResults)) =>
              if param.Some? then
                match Extend(results, currResults)
                case Err(e) => Fetched(Err(e), sent)
                case Ok(extended) =>
                  var r := Pump(query, handler, param, script[1..], next, extended, sent);
                  assert r.requests[..|sent|][..|requests|] == r.requests[..|requests|];
                  r
              else
                Pump(query, handler, param, script[1..], JNull, currResults, sent)
  }

  /** `await send_urlib_request_async(query, response_handler, query_continue_param)`: at most
      one request per response, and the first request, if any, is the bare query. */
  function Fetch(query: string, handler: Option<Handler>, param: Option<string>, script: seq<Json>): (r: Fetched)
    ensures |r.requests| <= |script|
    ensures r.requests != [] ==> r.requests[0] == query
  {
    Pump(query, handler, param, script, JStr(InitialRun), JArr([]), [])
  }

  /** The request loop itself, one response of `script` per request. */
  method SendUrlibRequestAsync(query: string, handler: Option<Handler>, param: Option<string>, script: seq<Json>)
    returns (outcome: Result<Json>, requests: seq<string>)
    ensures Fetched(outcome, requests) == Fetch(query, handler, param, script)
    ensures |requests| <= |script|
  {
    var results := JArr([]);
    var contin := JStr(InitialRun);
    var received := 0;
    requests := [];
    while contin != JNull
      invariant 0 <= received <= |script| && |requests| == received
      invariant Pump(query, handler, param, script[received..], contin, results, requests) == Fetch(query, handler, param, script)
      decreases |script| - received
    {
      var currQuery: string;
      if contin != JStr(InitialRun) && param.Some? {
        if !contin.JStr? {
          return Err(TypeError), requests;
        }
        currQuery := query + param.value + contin.s;
      } else {
        currQuery := query;
      }
      if received == |script| {
        return Err(ScriptExhausted), requests;
      }
      var response := script[received];
      assert script[received..][1..] == script[received + 1..];
      received := received + 1;
      requests := requests + [currQuery];
      if handler.None? {
        results := response;
        contin := JNull;
      } else {
        var handled := handler.value(response);
        if handled.Err? {
          return Err(handled.error), requests;
        }
        contin := handled.value.contin;
        if param.Some? {
          var extended := Extend(results, handled.value.payload);
          if extended.Err? {
            return Err(extended.error), requests;
          }
          results := extended.value;
        } else {
          results := handled.value.payload;
          contin := JNull;
        }
      }
    }
    return Ok(results), requests;
  }

  /** Without a handler, the first response is returned as it is, after one request. */
  lemma FetchWithoutHandler(query: string, param: Option<string>, script: seq<Json>)
    requires script != []
    ensures Fetch(query, None, param, script) == Fetched(Ok(script[0]), [query])
  {
    assert NextQuery(query, param, JStr(InitialRun)) == Ok(query);
    assert Pump(query, None, param, script[1..], JNull, script[0], [] + [query]) == Fetched(Ok(script[0]), [query]);
  }

  /** Without a continuation parameter, exactly one request is made, for the bare query, and
      the handler's payload is the result whatever token it returned. */
  lemma FetchWithoutParam(query: string, h: Handler, script: seq<Json>)
    requires script != []
    ensures Fetch(query, Some(h), None, script).requests == [query]
    ensures h(script[0]).Ok? ==> Fetch(query, Some(h), None, script).outcome == Ok(h(script[0]).value.payload)
    ensures h(script[0]).Err? ==> Fetch(query, Some(h), None, script).outcome == Err(h(script[0]).error)
  {
    assert NextQuery(query, None, JStr(InitialRun)) == Ok(query);
    if h(script[0]).Ok? {
      var payload := h(script[0]).value.payload;
      assert Pump(query, Some(h), None, script[1..], JNull, payload, [] + [query]) == Fetched(Ok(payload), [query]);
    }
  }

  /** The URL that follows a page whose handler returned the string token `t`. */
  function ContinueUrl(query: string, param: string, t: string): string {
    if t == InitialRun then query else query + param + t
  }

  /** The URLs requested for a run of pages: the bare query, then one URL per token but the last. */
  function PageUrls(query: string, param: string, tokens: seq<Json>): (r: seq<string>)
    requires |tokens| >= 1 && forall i :: 0 <= i < |tokens| - 1 ==> tokens[i].JStr?
    ensures |r| == |tokens|
    ensures r[0] == query
    ensures forall i :: 0 <= i < |tokens| - 1 ==> r[i + 1] == ContinueUrl(query, param, tokens[i].s)
  {
    [query] + seq(|tokens| - 1, i requires 0 <= i < |tokens| - 1 => ContinueUrl(query, param, tokens[i].s))
  }

  /** The pages the handler sees: response `i` carries token `tokens[i]` and a payload that
      iterates to `pages[i]`; every token but the last is a string, the last is None. */
  predicate PagedResponses(h: Handler, script: seq<Json>, tokens: seq<Json>, pages: seq<seq<Json>>) {
    |tokens| == |pages| && 1 <= |tokens| <= |script|
    && (forall i :: 0 <= i < |tokens| ==>
          h(script[i]).Ok? && h(script[i]).value.contin == tokens[i]
          && Iterate(h(script[i]).value.payload) == Ok(pages[i]))
    && (forall i :: 0 <= i < |tokens| - 1 ==> tokens[i].JStr?)
    && tokens[|tokens| - 1] == JNull
  }

  /** The loop from any string token on: one request per page, each continuing from the token
      before it, and the pages' items appended to the results in order. */
  lemma {:induction false} PumpPages(query: string, h: Handler, param: string, script: seq<Json>, contin: string,
                                     acc: seq<Json>, requests: seq<string>, tokens: seq<Json>, pages: seq<seq<Json>>)
    requires PagedResponses(h, script, tokens, pages)
    ensures Pump(query, Some(h), Some(param), script, JStr(contin), JArr(acc), requests)
         == Fetched(Ok(JArr(acc + Flatten(pages))),
                    requests + [ContinueUrl(query, param, contin)]
                             + seq(|tokens| - 1, i requires 0 <= i < |tokens| - 1 => ContinueUrl(query, param, tokens[i].s)))
    decreases |tokens|
  {
    var url := ContinueUrl(query, param, contin);
    var sent := requests + [url];
    PumpPageStep(query, h, param, script, contin, acc, requests, tokens, pages);
    assert Flatten(pages) == pages[0] + Flatten(pages[1..]);
    if |tokens| == 1 {
      assert Flatten(pages[1..]) == [];
      assert acc + Flatten(pages) == acc + pages[0];
    } else {
      PagedResponsesTail(h, script, tokens, pages);
      PumpPages(query, h, param, script[1..], tokens[0].s, acc + pages[0], sent, tokens[1..], pages[1..]);
      AppendAssoc(acc, pages[0], Flatten(pages[1..]));
      var rest := seq(|tokens| - 2, i requires 0 <= i < |tokens| - 2 => ContinueUrl(query, param, tokens[1..][i].s));
      ContinueUrlsTail(query, param, tokens);
      AppendAssoc(sent, [ContinueUrl(query, param, tokens[0].s)], rest);
    }
  }

  /** One page of the loop: the URL for `contin` is requested, the page's items are appended,
      and the loop goes on from the page's token. */
  lemma PumpPageStep(query: string, h: Handler, param: string, script: seq<Json>, contin: string,
                     acc: seq<Json>, requests: seq<string>, tokens: seq<Json>, pages: seq<seq<Json>>)
    requires PagedResponses(h, script, tokens, pages)
    ensures Pump(query, Some(h), Some(param), script, JStr(contin), JArr(acc), requests)
         == Pump(query, Some(h), Some(param), script[1..], tokens[0], JArr(acc + pages[0]),
                 requests + [ContinueUrl(query, param, contin)])
  {
    assert NextQuery(query, Some(param), JStr(contin)) == Ok(ContinueUrl(query, param, contin));
    assert Extend(JArr(acc), h(script[0]).value.payload) == Ok(JArr(acc + pages[0]));
  }

  /** The pages after the first are paged responses of the rest of the script. */
  lemma PagedResponsesTail(h: Handler, script: seq<Json>, tokens: seq<Json>, pages: seq<seq<Json>>)
    requires PagedResponses(h, script, tokens, pages) && |tokens| > 1
    ensures PagedResponses(h, script[1..], tokens[1..], pages[1..])
  {
    forall i | 0 <= i < |tokens| - 1
      ensures script[1..][i] == script[i + 1] && tokens[1..][i] == tokens[i + 1] && pages[1..][i] == pages[i + 1]
    {
    }
  }

  /** The continuation URLs of a run of pages: that of the first token, then those of the rest. */
  lemma ContinueUrlsTail(query: string, param: string, tokens: seq<Json>)
    requires |tokens| >= 2 && forall i :: 0 <= i < |tokens| - 1 ==> tokens[i].JStr?
    ensures seq(|tokens| - 1, i requires 0 <= i < |tokens| - 1 => ContinueUrl(query, param, tokens[i].s))
         == [ContinueUrl(query, param, tokens[0].s)]
            + seq(|tokens| - 2, i requires 0 <= i < |tokens| - 2 => ContinueUrl(query, param, tokens[1..][i].s))
  {
  }

  /** The continuation loop over `k` pages: `k` requests, the first for the bare query and
      request `i + 1` for the query, the parameter and the token of page `i`; the result is the
      items of all `k` payloads, in order. */
  lemma ContinuationPages(query: string, h: Handler, param: string, script: seq<Json>,
                          tokens: seq<Json>, pages: seq<seq<Json>>)
    requires PagedResponses(h, script, tokens, pages)
    ensures Fetch(query, Some(h), Some(param), script) == Fetched(Ok(JArr(Flatten(pages))), PageUrls(query, param, tokens))
  {
    PumpPages(query, h, param, script, InitialRun, [], [], tokens, pages);
    assert [] + Flatten(pages) == Flatten(pages);
  }

  /** When no page hands back the sentinel itself as its token, request `i + 1` is exactly
      the query, the parameter and token `i`. */
  lemma ContinuationUrls(query: string, h: Handler, param: string, script: seq<Json>,
                         tokens: seq<Json>, pages: seq<seq<Json>>)
    requires PagedResponses(h, script, tokens, pages)
    requires forall i :: 0 <= i < |tokens| ==> tokens[i] != JStr(InitialRun)
    ensures |Fetch(query, Some(h), Some(param), script).requests| == |tokens|
    ensures Fetch(query, Some(h), Some(param), script).requests[0] == query
    ensures forall i :: 0 <= i < |tokens| - 1 ==>
      Fetch(query, Some(h), Some(param), script).requests[i + 1] == query + param + tokens[i].s
  {
    ContinuationPages(query, h, param, script, tokens, pages);
  }

  /** A page whose token is the sentinel string itself sends the bare query again, as the
      comparison with `"initial_run"` in the loop does. */
  lemma SentinelTokenRepeatsQuery(query: string, h: Handler, param: string, script: seq<Json>, pages: seq<seq<Json>>)
    requires PagedResponses(h, script, [JStr(InitialRun), JNull], pages)
    ensures Fetch(query, Some(h), Some(param), script).requests == [query, query]
  {
    ContinuationPages(query, h, param, script, [JStr(InitialRun), JNull], pages);
  }

  /** The continuation parameter the scraper passes along with the category handler. */
  const CategoryContinueParam: string := "&cmcontinue="

  /** The token of category page `i`: each page but the last carries one. */
  function CategoryToken(tokens: seq<string>, i: nat): Option<string> {
    if i < |tokens| then Some(tokens[i]) else None
  }

  /** The tokens the category handler reads off `k` pages: the strings, then None. */
  function TokenJsons(tokens: seq<string>): (r: seq<Json>)
    ensures |r| == |tokens| + 1 && r[|tokens|] == JNull
    ensures forall i :: 0 <= i < |tokens| ==> r[i] == JStr(tokens[i])
  {
    seq(|tokens| + 1, i requires 0 <= i <= |tokens| => if i < |tokens| then JStr(tokens[i]) else JNull)
  }

  /** The URLs requested for a category: the bare query, then the query with each token. */
  function CategoryUrls(query: string, tokens: seq<string>): seq<string> {
    [query] + seq(|tokens|, i requires 0 <= i < |tokens| => query + CategoryContinueParam + tokens[i])
  }

  lemma CategoryPagesHandled(script: seq<Json>, members: seq<seq<Json>>, tokens: seq<string>)
    requires |members| == |tokens| + 1 && |script| == |members|
    requires forall i :: 0 <= i < |script| ==> script[i] == CategoryResponse(members[i], CategoryToken(tokens, i))
    ensures PagedResponses(HandleCategoryPagesReturn, script, TokenJsons(tokens), members)
  {
    var tokenJson := TokenJsons(tokens);
    forall i | 0 <= i < |script|
      ensures HandleCategoryPagesReturn(script[i]) == Ok(Handled(tokenJson[i], JArr(members[i])))
    {
      CategoryResponseRoundTrip(members[i], CategoryToken(tokens, i));
    }
  }

  lemma CategoryPageUrls(query: string, tokens: seq<string>)
    requires forall i :: 0 <= i < |tokens| ==> tokens[i] != InitialRun
    ensures PageUrls(query, CategoryContinueParam, TokenJsons(tokens)) == CategoryUrls(query, tokens)
  {
    var urls := PageUrls(query, CategoryContinueParam, TokenJsons(tokens));
    var expected := CategoryUrls(query, tokens);
    forall i | 0 <= i < |urls|
      ensures urls[i] == expected[i]
    {
      if i > 0 {
        assert urls[i] == ContinueUrl(query, CategoryContinueParam, tokens[i - 1]);
      }
    }
  }

  /** Fetching a category over `k` pages of members: the category handler with `&cmcontinue=`
      requests the bare query, then the query with each page's `cmcontinue` token, and returns
      all the members, page after page. */
  lemma CategoryMembersPaged(query: string, script: seq<Json>, members: seq<seq<Json>>, tokens: seq<string>)
    requires |members| == |tokens| + 1 && |script| == |members|
    requires forall i :: 0 <= i < |script| ==> script[i] == CategoryResponse(members[i], CategoryToken(tokens, i))
    requires forall i :: 0 <= i < |tokens| ==> tokens[i] != InitialRun
    ensures Fetch(query, Some(HandleCategoryPagesReturn), Some(CategoryContinueParam), script)
         == Fetched(Ok(JArr(Flatten(members))), CategoryUrls(query, tokens))
  {
    calc {
      Fetch(query, Some(HandleCategoryPagesReturn), Some(CategoryContinueParam), script);
      { CategoryPagesHandled(script, members, tokens);
        ContinuationPages(query, HandleCategoryPagesReturn, CategoryContinueParam, script, TokenJsons(tokens), members); }
      Fetched(Ok(JArr(Flatten(members))), PageUrls(query, CategoryContinueParam, TokenJsons(tokens)));
      { CategoryPageUrls(query, tokens); }
      Fetched(Ok(JArr(Flatten(members))), CategoryUrls(query, tokens));
    }
  }

  /** `await handle_queries(queries, ...)`: one result per query, in the order of the queries;
      `scripts[i]` holds the responses to `queries[i]`. */
  function HandleQueries(queries: seq<string>, handler: Option<Handler>, param: Option<string>, scripts: seq<seq<Json>>)
    : (r: Result<seq<Json>>)
    requires |scripts| == |queries|
    ensures r.Ok? <==> forall i :: 0 <= i < |queries| ==> Fetch(queries[i], handler, param, scripts[i]).outcome.Ok?
    ensures r.Ok? ==> |r.value| == |queries|
    ensures r.Ok? ==> forall i :: 0 <= i < |queries| ==> r.value[i] == Fetch(queries[i], handler, param, scripts[i]).outcome.value
    ensures r.Err? ==> exists i :: 0 <= i < |queries| && Fetch(queries[i], handler, param, scripts[i]).outcome == Err(r.error)
  {
    if queries == [] then Ok([])
    else
      var first :- Fetch(queries[0], handler, param, scripts[0]).outcome;
      var rest :- HandleQueries(queries[1..], handler, param, scripts[1..]);
      assert forall i :: 1 <= i < |queries| ==> queries[1..][i - 1] == queries[i] && scripts[1..][i - 1] == scripts[i];
      Ok([first] + rest)
  }
}
