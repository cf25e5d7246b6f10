# Wikipedia talk-page scraper: a verified Dafny model

This project models the data-shaping core of a Wikipedia scraper written in Python. The scraper's
pieces are modelled as follows:

- **Query builders.** It builds MediaWiki API query URLs for three kinds of request: the members
  of a category, the pages whose title starts with a prefix, and the current revision of a batch
  of pages.
- **Continuation loop.** It sends each query and follows the API's continuation tokens until the
  handler returns none.
- **Response handlers.** They pick the payload and the next token out of each decoded response.
- **List helpers.** It cuts title lists into batches of at most 50 titles and flattens nested
  lists.
- **Comment helpers.** A notebook helper turns a parsed talk-page comment tree into
  `(author, text)` tuples, in pre-order.

Python values are the `Json` datatype. JSON null is Python's `None`. An object is a list of
bindings in which the last binding of a key wins. A Python exception is an `Err` value of
`Result`. The exceptions modelled are `KeyError`, `TypeError`, `AttributeError`, `IndexError`
and `ValueError`.

The network is outside the model. A query's responses are a finite `script` of decoded JSON
values, and each request consumes one of them. When the script runs out, the outcome is
`ScriptExhausted`. `urllib.parse.quote_plus` is the function parameter `quotePlus`.

Modules:

- `Wrappers` holds `Option`, `Result` and the exceptions.
- `Json` holds the value type and the Python operations on it: `d[k]`, `d.get(k)`, `k in d`,
  `len`, iteration and truthiness.
- `ListUtils` holds `flatten`, `chunks` and `chunk_list`.
- `Strings` holds `str.join`, `str(n)`, and `str.split` as the inverse of join.
- `Queries` holds the three URL builders.
- `Handlers` holds the response handlers and `parse_wiki_page`.
- `Fetch` holds `send_urlib_request_async` and `handle_queries`.
- `Comments` holds `parse_comment` and `parse_comment_subcomment`.

## Model

| member | source | states |
|---|---|---|
| ListUtils.Flatten | project/scraper.py:19-20 | the flattened list is as long as all sublists together |
| ListUtils.FlattenAppend | project/scraper.py:19-20 | flattening `a + b` is flattening `a`, then flattening `b` |
| ListUtils.FlattenSublistAt | project/utils.py:11-12 | every sublist appears whole and in order in the result, at the offset given by the lengths of the sublists before it |
| ListUtils.Chunks | project/scraper.py:14-17 | `n == 0` raises ValueError (from `range`); a negative `n` gives no chunks; for `n > 0` the chunks flatten back to `lst`, and there are `ceil(len(lst) / n)` of them |
| ListUtils.Chunked | project/scraper.py:16-17 | the slices `lst[i:i + n]` for `i` in `range(0, len(lst), n)`, concatenated in order, are exactly the input |
| ListUtils.ChunkedCount | project/scraper.py:16 | there are `ceil(len / n)` slices, one per value of the range |
| ListUtils.ChunkedSizes | project/scraper.py:17 | no slices iff the input is empty; every slice but the last is exactly `n` long; the last is non-empty and at most `n` long |
| ListUtils.ChunkedShape | project/scraper.py:14-17 | `ceil(len / n)` chunks; no chunks iff the input is empty; every chunk but the last has length `n`; the last is non-empty and at most `n` long |
| ListUtils.ChunksBounded | project/scraper.py:17 | every chunk is non-empty and at most `n` long |
| ListUtils.ChunkList | project/utils.py:30-38 | the appending loop over `range(0, len, chunk_size)` returns exactly what `chunks` yields, including the ValueError for size 0 and `[]` for a negative size |
| Strings.Join | project/scraper.py:79 | `"\|".join(titles)` of a non-empty list of titles, none containing `\|`, splits back into exactly those titles (`Split` is Python's `str.split`, the reader of the joined string) |
| Strings.SplitAtSeparator | project/scraper.py:34 | splitting `a & b` gives the pieces of `a`, then the pieces of `b` |
| Strings.IntToString | project/scraper.py:32 | `str(namespace_id)` is made of digits and a minus sign only, so it never contains `&` |
| Strings.NatToStringValue | project/scraper.py:32 | reading the decimal digits of `str(n)` gives back `n` |
| Queries.GetCategoryPagesQuery | project/scraper.py:26-36 | read back at `&`, the URL is the base URL with `action=query`, then exactly the parameters `list=categorymembers`, `cmtitle=quote_plus(title)`, `cmnamespace=<id>`, `format=json` and `cmlimit=500`, in that order |
| Queries.GetWikiPagesWithPrefixQuery | project/scraper.py:51-61 | read back at `&`, the URL is the base URL with `action=query`, then exactly `list=allpages`, `apprefix=quote_plus(prefix)`, `apnamespace=<id>`, `format=json` and `aplimit=500` |
| Queries.TitleString | project/scraper.py:78-81 | a list of titles is joined with `\|` so that the title string names exactly those titles, in order; a single title passes through unchanged |
| Queries.GetWikiDataQuery | project/scraper.py:76-90 | read back at `&`, the URL is the base URL with `action=query`, then exactly `prop=revisions`, `rvprop=content`, `rvslots=*`, `titles=quote_plus(titlestring)` and `format=json` |
| Queries.BatchedRequestsCoverTitles | project/scraper.py:235-237 | batching titles with `chunks(titles, 50)` and building one page query per batch requests every title exactly once, in order, with 1 to 50 titles per request |
| Queries.CoverByInduction | project/scraper.py:235-237 | the titles requested batch by batch, flattened, are the input titles |
| Json.Lookup | project/scraper.py:40 | a key is found iff some binding has it, and what is found is its last binding |
| Json.Field | project/scraper.py:40 | `j[key]` succeeds iff `j` is a dict holding `key`; otherwise it raises KeyError on a dict and TypeError on anything else |
| Json.Item | project/scraper.py:182 | `j[0]` on a list is its first element, or IndexError when it is empty; on a string it is the first character; on a dict it is a KeyError; on anything else a TypeError |
| Json.Get | project/utils.py:44 | `j.get(key)` is the bound value, or None when the key is missing; it raises AttributeError on a non-dict; what it returns is no larger than the dict |
| Json.Contains | project/scraper.py:42 | `key in j` is key membership on a dict, element membership on a list and substring search on a string; it raises TypeError on anything else |
| Json.Iterate | project/utils.py:47 | iteration visits the list's items, the dict's keys as strings in binding order, or the string's one-character strings in order, as many as `len` counts, and every dict it visits is smaller than the value iterated; it raises TypeError on anything else |
| Json.Len | project/scraper.py:67 | `len(j)` counts the items of a list, the bindings of a dict and the characters of a string; it raises TypeError on anything else |
| Json.Truthy | project/utils.py:57 | None is false, and a list, dict or string is true iff its `len` is positive |
| Handlers.HandleCategoryPagesReturn | project/scraper.py:38-47 | it succeeds iff `query.categorymembers` exists and, when there is a `continue` key, `continue.cmcontinue` exists; on success the payload is `query.categorymembers` unchanged; the token is None when there is no `continue` key, and `continue.cmcontinue` when there is |
| Handlers.CategoryResponseRoundTrip | project/scraper.py:38-47 | on a well-formed category response the handler returns its members unchanged, and its `cmcontinue` token exactly when the response has one |
| Handlers.TitlesOf | project/scraper.py:68 | the comprehension succeeds iff every entry has a `title`, and then returns one title per entry, in the same order; otherwise it raises the error of the first entry without one |
| Handlers.HandleWikiPagesWithPrefixReturn | project/scraper.py:63-72 | the token is always None and the payload is a list |
| Handlers.WikiPagesWithPrefixTitles | project/scraper.py:63-72 | for an `allpages` list, the handler succeeds iff every entry has a title, and then returns the titles with the same length and order |
| Handlers.PrefixResponseRoundTrip | project/scraper.py:63-72 | on a well-formed `allpages` response the handler returns exactly the listed titles, in order, with token None |
| Handlers.HandleWikiDataReturn | project/scraper.py:92-96 | succeeds iff `query.pages` exists, and returns that object with token None |
| Handlers.DataResponseRoundTrip | project/scraper.py:92-96 | on a well-formed `prop=revisions` response the handler returns the `pages` object unchanged, with token None |
| Handlers.ParseWikiPage | project/scraper.py:178-190 | a page for which `"revisions" in page` is false (a dict without the key, or a list without that element) yields None; when it is true, a successful result is `{"origin_title": page["title"]}` |
| Handlers.ParseWikiPageRoundTrip | project/scraper.py:178-190 | a page with a revision yields its title; a missing page yields None |
| Fetch.NextQuery | project/scraper.py:116-119 | the bare query on the first run, when the token is the sentinel, and when there is no continuation parameter; otherwise query + parameter + token; a token that is not a string raises TypeError |
| Fetch.Extend | project/scraper.py:132 | `results += payload` appends what iterating the payload visits; it raises TypeError when the payload is not iterable or the results are not a list |
| Fetch.Pump | project/scraper.py:115-135 | the loop only appends to the requests made so far, at most one per response received |
| Fetch.Fetch | project/scraper.py:108-137 | the loop makes at most one request per response received, and its first request, if any, is the bare query |
| Fetch.SendUrlibRequestAsync | project/scraper.py:108-137 | the loop returns and requests exactly what the loop specification `Fetch` gives, and it makes no more requests than there are responses |
| Fetch.FetchWithoutHandler | project/scraper.py:126-128 | without a handler, one request for the bare query is made, and the raw decoded response is the result |
| Fetch.FetchWithoutParam | project/scraper.py:129-135 | without a continuation parameter, exactly one request is made, for the bare query; the result is the handler's payload, whatever token it returned, or the exception it raised |
| Fetch.PumpPages | project/scraper.py:115-135 | from any string token on, each page costs one request, continuing from the token before it, and its items are appended to the results in order |
| Fetch.PumpPageStep | project/scraper.py:116-133 | one page of the loop requests the URL for the current token, appends the page's items and carries on from the page's token |
| Fetch.ContinuationPages | project/scraper.py:108-137 | when the handler returns string tokens t1..t(k-1) and then None, exactly k requests are made, the list `PageUrls`: the bare query, then one per token; the result is the items of the k payloads, concatenated in order |
| Fetch.ContinuationUrls | project/scraper.py:116-117 | when no token is the sentinel, request i+1 is exactly `query + param + t_i` |
| Fetch.SentinelTokenRepeatsQuery | project/scraper.py:113-117 | a handler token equal to `"initial_run"` makes the next request the bare query again |
| Fetch.CategoryMembersPaged | project/scraper.py:204 | fetching a category over k pages with the category handler and `&cmcontinue=` requests the bare query, then the query with each page's token; the result is all members, page after page |
| Fetch.HandleQueries | project/scraper.py:139-143 | succeeds iff every query's loop succeeds, and then returns one result per query, the i-th being the i-th query's; otherwise the error is one of the failing queries' |
| Comments.SpacedText | project/utils.py:45-49 | the text is built iff every block is a string; otherwise TypeError |
| Comments.ParsedComment | project/utils.py:40-51 | a non-dict raises AttributeError; on success the author is `comment.get("author")` and the text is the spaced concatenation of the iterated `text_blocks` |
| Comments.ParseComment | project/utils.py:40-51 | the accumulating loop returns exactly `ParsedComment` |
| Comments.ParseCommentTree | project/utils.py:53-59 | the first tuple is the comment's own `parse_comment`, and an error there is the result |
| Comments.CommentTreeUnfolds | project/utils.py:56-59 | when `comment.get("comments")` is falsy the comment's own tuple is the only one; otherwise the replies are iterated and their tuples follow it |
| Comments.CommentTreeFails | project/utils.py:56-59 | when the comment itself parses but its tree fails, `comment.get("comments")` is truthy, and the failure is the TypeError of iterating it or else the replies' own failure |
| Comments.ParseReplies | project/utils.py:58-59 | no replies give no tuples; a successful traversal yields at least one tuple per reply |
| Comments.RepliesUnfold | project/utils.py:58-59 | on success, the first reply's full traversal comes first, then the traversal of the remaining replies, in list order; a failure is the first reply's error when that reply fails, and otherwise the remaining replies' failure |
| Comments.RepliesOkIffEachOk | project/utils.py:58-59 | the replies' traversal succeeds if and only if every reply's traversal succeeds |
| Comments.RepliesSuffixStep | project/utils.py:58-59 | at a failing run of replies, either its first reply fails with the run's error, or that reply succeeds and the same failure lies in the shorter run after it |
| Comments.RepliesFirstError | project/utils.py:58-59 | a failed traversal of the replies carries the error of the first reply whose traversal fails; every reply before it succeeded |
| Comments.NoRepliesOneTuple | project/utils.py:56-57 | a comment whose `comments` entry is missing, empty or otherwise falsy yields exactly one tuple |
| Comments.PreOrderSize | project/utils.py:53-59 | a pre-order traversal has one tuple per comment of the tree |
| Comments.SpacedTextOfStrings | project/utils.py:45-49 | the loop's text is `' ' + block` for each block, concatenated in order (`''` for no blocks) |
| Comments.SpacedStringsLength | project/utils.py:49 | the text is one character longer per block than the blocks together |
| Comments.ParsedCommentJson | project/utils.py:40-51 | an encoded comment gives back its author (None when it has none) and its text |
| Comments.ParseCommentTreeJson | project/utils.py:53-59 | parsing an encoded tree yields exactly its pre-order list: the comment, then each reply's subtree in order |
| Comments.ParseRepliesJson | project/utils.py:57-59 | the replies' tuples are their subtrees' pre-orders, concatenated in list order |
| Comments.ParseCommentTreeCount | project/utils.py:53-59 | the number of tuples equals the number of comments in the tree |

## Left out

- Network I/O is outside the model: the aiohttp session, `urllib.request.urlopen` in
  `send_urlib_request_sync`, reading and decoding the response text, and `json.loads`. A response
  is an already-decoded `Json` value taken from the per-query `script`. The loop has no cap on
  the number of requests; the finite script bounds it, and `ScriptExhausted` is the outcome when
  it runs out.
- `tqdm.gather` runs the queries concurrently. `HandleQueries` runs them one after another, in
  list order. The results are the same. When several queries raise, the model reports the first
  in list order; the code raises whichever fails first in time.
- Fetch.HandleQueries: its error case says only that the error comes from some failing query, not
  which one. It does not model the concurrent timing that decides this in the code.
- `urllib.parse.quote_plus` is the parameter `quotePlus`, with no definition. The URL lemmas assume
  only that the quoted text contains no `&`, which is what percent-encoding guarantees.
- JSON numbers are integers; floats are not modelled. Objects are lists of bindings. Where iteration
  visits dict keys, a key bound twice appears twice. `Json.Len` and `Json.Truthy` likewise count
  every binding, where Python's dict counts such a key once. Lookups are unaffected: the last
  binding wins, as in `json.loads`.
- The `re.sub` whitespace normalisation in `parse_wiki_page`: its result is never used. Only its
  demand that the content be a string is kept, as a TypeError.
- `parse_talk_page`: it depends on regular-expression extraction and `np.unique`.
- `scrape_wiki`: it composes the modelled pieces. Its graph building with networkx, the drawing
  and the printing are not modelled. Its use of `chunks` with the limit of 50 is modelled by
  `Queries.BatchedRequestsCoverTitles`, and its category fetch by `Fetch.CategoryMembersPaged`.
- `parse_comments_from_pages`: file I/O and the `wikichatter` parser, with exceptions swallowed.
- `tokenize_custom`: NLTK tokenisation and lemmatisation, and regular expressions.
- The Scrapy spider `quotes_spider.py`: framework callbacks, CSS selection and file writes.
- The code has no worker pool, concurrency ceiling, retry policy or key-union merge of map
  payloads. Continued payloads are merged by list `+=`, and the model follows that.
- `parse_comment_subcomment` is a generator. It is modelled as the list it yields in full;
  when it raises partway, the model gives the error and not the tuples yielded before it.
