/** The talk-page comment helpers of the notebook utilities: `parse_comment`, which turns one
    comment of a parsed talk page into an `(author, text)` pair, and the generator
    `parse_comment_subcomment`, which does so for a comment and, depth first, all its replies. */
module Comments {
  import opened Wrappers
  import opened Json
  import opened ListUtils

  /** The `(author, text)` tuple; the author is whatever `comment.get("author")` gave, None included. */
  datatype Parsed = Parsed(author: Json, text: string)

  /** `result += ' ' + text` over the blocks, from the empty string; a block that is not a
      string makes the concatenation raise TypeError. */
  function SpacedText(blocks: seq<Json>): (r: Result<string>)
    ensures r.Ok? <==> forall i :: 0 <= i < |blocks| ==> blocks[i].JStr?
    ensures r.Err? ==> r.error == TypeError
  {
    if blocks == [] then Ok("")
    else
      var front := blocks[..|blocks| - 1];
      assert forall i :: 0 <= i < |front| ==> front[i] == blocks[i];
      var text :- SpacedText(front);
      var last := blocks[|blocks| - 1];
      if last.JStr? then Ok(text + " " + last.s) else Err(TypeError)
  }

  /** What `parse_comment` returns, or the exception it raises. */
  function ParsedComment(comment: Json): (r: Result<Parsed>)
    ensures !comment.JObj? ==> r == Err(AttributeError)
    ensures r.Ok? ==> comment.JObj? && Get(comment, "author") == Ok(r.value.author)
    ensures r.Ok? ==> Field(comment, "text_blocks").Ok? && Iterate(Field(comment, "text_blocks").value).Ok?
                      && SpacedText(Iterate(Field(comment, "text_blocks").value).value) == Ok(r.value.text)
  {
    var author :- Get(comment, "author");
    var textBlocks :- Field(comment, "text_blocks");
    var blocks :- Iterate(textBlocks);
    var text :- SpacedText(blocks);
    Ok(Parsed(author, text))
  }

  /** `parse_comment`, with its loop over the text blocks. */
  method ParseComment(comment: Json) returns (r: Result<Parsed>)
    ensures r == ParsedComment(comment)
  {
    var author := Get(comment, "author");
    if author.Err? {
      return Err(author.error);
    }
    var textBlocks := Field(comment, "text_blocks");
    if textBlocks.Err? {
      return Err(textBlocks.error);
    }
    var blocks := Iterate(textBlocks.value);
    if blocks.Err? {
      return Err(blocks.error);
    }
    var result := "";
    for i := 0 to |blocks.value|
      invariant SpacedText(blocks.value[..i]) == Ok(result)
    {
      var text := blocks.value[i];
      if !text.JStr? {
        return Err(TypeError);
      }
      assert blocks.value[..i + 1][..i] == blocks.value[..i];
      result := result + " " + text.s;
    }
    assert blocks.value[..|blocks.value|] == blocks.value;
    return Ok(Parsed(author.value, result));
  }

  /** The measure under which a reply is smaller than the comment holding it; anything that is
      not an object fails at once in `parse_comment` and is never looked into. */
  function CommentSize(comment: Json): nat {
    if comment.JObj? then JSize(comment) else 0
  }

  /** `list(parse_comment_subcomment(comment))`: the comment's tuple, then, when
      `comment.get("comments")` is truthy, the tuples of each reply in turn. */
  function ParseCommentTree(comment: Json): (r: Result<seq<Parsed>>)
    ensures r.Ok? ==> |r.value| >= 1 && ParsedComment(comment) == Ok(r.value[0])
    ensures ParsedComment(comment).Err? ==> r == Err(ParsedComment(comment).error)
    decreases CommentSize(comment), 1
  {
    var first :- ParsedComment(comment);
    var replies := Get(comment, "comments").value;
    if Truthy(replies) then
      var items :- Iterate(replies);
      var rest :- ParseReplies(items, JSize(comment));
      Ok([first] + rest)
    else
      Ok([first])
  }

  /** The tuples of the replies, one reply after the other. Every reply that is an object is
      smaller than `bound`, the size of the comment they belong to. */
  function ParseReplies(items: seq<Json>, bound: nat): (r: Result<seq<Parsed>>)
    requires bound >= 1
    requires forall i :: 0 <= i < |items| && items[i].JObj? ==> JSize(items[i]) < bound
    ensures items == [] ==> r == Ok([])
    ensures r.Ok? ==> |r.value| >= |items|
    decreases bound, 0, |items|
  {
    if items == [] then Ok([])
    else
      var first :- ParseCommentTree(items[0]);
      var rest :- ParseReplies(items[1..], bound);
      assert forall i :: 1 <= i < |items| ==> items[1..][i - 1] == items[i];
      Ok(first + rest)
  }

  /** The tuple list of a comment: its own tuple alone when `comment.get("comments")` is falsy,
      and otherwise followed by the tuples of the iterated replies. */
  lemma CommentTreeUnfolds(comment: Json)
    requires ParseCommentTree(comment).Ok? && comment.JObj?
    ensures !Truthy(Get(comment, "comments").value) ==>
      ParseCommentTree(comment).value == [ParsedComment(comment).value]
    ensures Truthy(Get(comment, "comments").value) ==>
      Iterate(Get(comment, "comments").value).Ok?
      && ParseReplies(Iterate(Get(comment, "comments").value).value, JSize(comment)).Ok?
      && ParseCommentTree(comment).value
         == [ParsedComment(comment).value] + ParseReplies(Iterate(Get(comment, "comments").value).value, JSize(comment)).value
  {
  }

  /** When the comment itself parses but its tree does not, the failure comes from the replies:
      `comment.get("comments")` is truthy, and either iterating it raises TypeError or the
      replies' traversal fails with the tree's error. */
  lemma CommentTreeFails(comment: Json)
    requires ParsedComment(comment).Ok? && ParseCommentTree(comment).Err?
    ensures comment.JObj? && Truthy(Get(comment, "comments").value)
    ensures Iterate(Get(comment, "comments").value).Err? ==> ParseCommentTree(comment) == Err(TypeError)
    ensures Iterate(Get(comment, "comments").value).Ok? ==>
      ParseReplies(Iterate(Get(comment, "comments").value).value, JSize(comment)) == ParseCommentTree(comment)
  {
  }

  /** The replies one after the other: on success, the first reply's full traversal followed
      by that of the rest; on failure, the first reply's error when it fails, and otherwise the
      rest's failure. */
  lemma RepliesUnfold(items: seq<Json>, bound: nat)
    requires bound >= 1
    requires forall i :: 0 <= i < |items| && items[i].JObj? ==> JSize(items[i]) < bound
    requires items != []
    ensures ParseReplies(items, bound).Ok? ==>
      ParseCommentTree(items[0]).Ok? && ParseReplies(items[1..], bound).Ok?
      && ParseReplies(items, bound).value == ParseCommentTree(items[0]).value + ParseReplies(items[1..], bound).value
    ensures ParseReplies(items, bound).Err? ==>
      (ParseCommentTree(items[0]).Err? ==> ParseReplies(items, bound) == Err(ParseCommentTree(items[0]).error))
      && (ParseCommentTree(items[0]).Ok? ==> ParseReplies(items, bound) == ParseReplies(items[1..], bound))
  {
  }

  /** The replies' traversal succeeds exactly when every reply's traversal succeeds. */
  lemma {:induction false} RepliesOkIffEachOk(items: seq<Json>, bound: nat)
    requires bound >= 1
    requires forall i :: 0 <= i < |items| && items[i].JObj? ==> JSize(items[i]) < bound
    ensures ParseReplies(items, bound).Ok? <==> forall i :: 0 <= i < |items| ==> ParseCommentTree(items[i]).Ok?
  {
    if items != [] {
      RepliesUnfold(items, bound);
      var tail := items[1..];
      assert forall i :: 1 <= i < |items| ==> tail[i - 1] == items[i];
      RepliesOkIffEachOk(tail, bound);
    }
  }

  /** One step of the search for the first failing reply: at a failing suffix `items[k..]`,
      either reply `k` fails with the suffix's error, or it succeeds and the failure lies in
      the strictly shorter suffix after it. */
  lemma RepliesSuffixStep(items: seq<Json>, bound: nat, k: nat)
    requires bound >= 1
    requires forall i :: 0 <= i < |items| && items[i].JObj? ==> JSize(items[i]) < bound
    requires k < |items| && ParseReplies(items[k..], bound).Err?
    ensures ParseCommentTree(items[k]).Err? ==> ParseReplies(items[k..], bound) == Err(ParseCommentTree(items[k]).error)
    ensures ParseCommentTree(items[k]).Ok? ==> k + 1 < |items| && ParseReplies(items[k + 1..], bound) == ParseReplies(items[k..], bound)
  {
    var suffix := items[k..];
    assert forall i :: 0 <= i < |suffix| ==> suffix[i] == items[k + i];
    RepliesUnfold(suffix, bound);
    assert suffix[1..] == items[k + 1..];
  }

  /** When the replies' traversal fails, it fails with the error of the first reply whose
      traversal fails. */
  lemma RepliesFirstError(items: seq<Json>, bound: nat)
    requires bound >= 1
    requires forall i :: 0 <= i < |items| && items[i].JObj? ==> JSize(items[i]) < bound
    requires ParseReplies(items, bound).Err?
    ensures exists i :: 0 <= i < |items| && ParseCommentTree(items[i]) == Err(ParseReplies(items, bound).error)
                        && forall k :: 0 <= k < i ==> ParseCommentTree(items[k]).Ok?
  {
    var e := ParseReplies(items, bound).error;
    var k := 0;
    assert items[k..] == items;
    while ParseCommentTree(items[k]).Ok?
      invariant 0 <= k < |items|
      invariant ParseReplies(items[k..], bound) == Err(e)
      invariant forall m :: 0 <= m < k ==> ParseCommentTree(items[m]).Ok?
      decreases |items| - k
    {
      RepliesSuffixStep(items, bound, k);
      k := k + 1;
    }
    RepliesSuffixStep(items, bound, k);
  }

  /** A comment with no replies, or an empty or missing `comments` entry, yields one tuple. */
  lemma NoRepliesOneTuple(comment: Json)
    requires ParsedComment(comment).Ok?
    requires !Truthy(Get(comment, "comments").value)
    ensures ParseCommentTree(comment) == Ok([ParsedComment(comment).value])
  {
  }

  // A typed comment tree, as a talk-page parser produces it, and its encoding as parsed JSON.

  datatype Comment = Comment(author: Option<string>, blocks: seq<string>, replies: seq<Comment>)

  /** The author as `get` returns it: the name, or None when the comment has no author. */
  function AuthorJson(author: Option<string>): Json {
    if author.Some? then JStr(author.value) else JNull
  }

  function TextBlocksJson(blocks: seq<string>): (r: seq<Json>)
    ensures |r| == |blocks| && forall i :: 0 <= i < |blocks| ==> r[i] == JStr(blocks[i])
  {
    seq(|blocks|, i requires 0 <= i < |blocks| => JStr(blocks[i]))
  }

  /** A comment as a dict: `author` only when there is one, then `text_blocks` and `comments`. */
  function CommentJson(c: Comment): Json
    decreases c, 1
  {
    var body := [("text_blocks", JArr(TextBlocksJson(c.blocks))), ("comments", JArr(RepliesJson(c.replies)))];
    if c.author.Some? then JObj([("author", JStr(c.author.value))] + body) else JObj(body)
  }

  function RepliesJson(cs: seq<Comment>): (r: seq<Json>)
    ensures |r| == |cs|
    decreases cs, 0
  {
    if cs == [] then [] else [CommentJson(cs[0])] + RepliesJson(cs[1..])
  }

  /** The text of a comment: a space before each block, all concatenated. */
  function SpacedStrings(blocks: seq<string>): string {
    Flatten(seq(|blocks|, i requires 0 <= i < |blocks| => " " + blocks[i]))
  }

  /** The comments of a tree in pre-order: the comment, then each reply's subtree in order. */
  function PreOrder(c: Comment): seq<Parsed>
    decreases c, 1
  {
    [Parsed(AuthorJson(c.author), SpacedStrings(c.blocks))] + ForestPreOrder(c.replies)
  }

  function ForestPreOrder(cs: seq<Comment>): seq<Parsed>
    decreases cs, 0
  {
    if cs == [] then [] else PreOrder(cs[0]) + ForestPreOrder(cs[1..])
  }

  /** The number of comments in a tree. */
  function Size(c: Comment): nat
    decreases c, 1
  {
    1 + ForestSize(c.replies)
  }

  function ForestSize(cs: seq<Comment>): nat
    decreases cs, 0
  {
    if cs == [] then 0 else Size(cs[0]) + ForestSize(cs[1..])
  }

  /** One tuple per comment. */
  lemma {:induction false} PreOrderSize(c: Comment)
    ensures |PreOrder(c)| == Size(c)
    decreases c, 1
  {
    ForestPreOrderSize(c.replies);
  }

  lemma {:induction false} ForestPreOrderSize(cs: seq<Comment>)
    ensures |ForestPreOrder(cs)| == ForestSize(cs)
    decreases cs, 0
  {
    if cs != [] {
      PreOrderSize(cs[0]);
      ForestPreOrderSize(cs[1..]);
    }
  }

  /** The loop of `parse_comment` builds the same text as the reference definition. */
  lemma {:induction false} SpacedTextOfStrings(blocks: seq<string>)
    ensures SpacedText(TextBlocksJson(blocks)) == Ok(SpacedStrings(blocks))
  {
    if blocks != [] {
      var front := blocks[..|blocks| - 1];
      SpacedTextOfStrings(front);
      assert TextBlocksJson(blocks)[..|blocks| - 1] == TextBlocksJson(front);
      var spaced := seq(|blocks|, i requires 0 <= i < |blocks| => " " + blocks[i]);
      var frontSpaced := seq(|front|, i requires 0 <= i < |front| => " " + front[i]);
      assert spaced == frontSpaced + [" " + blocks[|blocks| - 1]];
      var spacedLast := " " + blocks[|blocks| - 1];
      FlattenAppend(frontSpaced, [spacedLast]);
      assert [spacedLast][1..] == [];
      assert Flatten([spacedLast]) == spacedLast;
      assert SpacedStrings(blocks) == SpacedStrings(front) + spacedLast;
      assert SpacedStrings(front) + " " + blocks[|blocks| - 1] == SpacedStrings(front) + spacedLast;
    }
  }

  /** The text of a comment is one space plus the block for each block: its length is the
      number of blocks plus their total length. */
  lemma {:induction false} SpacedStringsLength(blocks: seq<string>)
    ensures |SpacedStrings(blocks)| == |blocks| + SumLengths(blocks)
  {
    if blocks != [] {
      var spaced := seq(|blocks|, i requires 0 <= i < |blocks| => " " + blocks[i]);
      SpacedLengths(blocks, spaced);
    }
  }

  lemma {:induction false} SpacedLengths(blocks: seq<string>, spaced: seq<string>)
    requires |spaced| == |blocks| && forall i :: 0 <= i < |blocks| ==> spaced[i] == " " + blocks[i]
    ensures SumLengths(spaced) == |blocks| + SumLengths(blocks)
  {
    if blocks != [] {
      SpacedLengths(blocks[1..], spaced[1..]);
    }
  }

  /** Where the keys of an encoded comment are found. */
  lemma CommentJsonLookups(c: Comment)
    ensures CommentJson(c).JObj?
    ensures Lookup(CommentJson(c).fields, "comments") == Some(JArr(RepliesJson(c.replies)))
    ensures Lookup(CommentJson(c).fields, "text_blocks") == Some(JArr(TextBlocksJson(c.blocks)))
    ensures Lookup(CommentJson(c).fields, "author") == if c.author.Some? then Some(JStr(c.author.value)) else None
  {
    var fs := CommentJson(c).fields;
    var n := |fs|;
    assert fs[n - 1].0 == "comments" && fs[n - 2].0 == "text_blocks";
    var front := fs[..n - 1];
    assert front[..n - 2] == fs[..n - 2];
    assert Lookup(front, "text_blocks") == Some(fs[n - 2].1);
    assert Lookup(front, "author") == Lookup(fs[..n - 2], "author");
    if c.author.Some? {
      assert fs[..n - 2] == [("author", JStr(c.author.value))];
    } else {
      assert fs[..n - 2] == [];
    }
  }

  /** `parse_comment` on an encoded comment gives back its author (None when it has none)
      and its text. */
  lemma ParsedCommentJson(c: Comment)
    ensures ParsedComment(CommentJson(c)) == Ok(Parsed(AuthorJson(c.author), SpacedStrings(c.blocks)))
    ensures Get(CommentJson(c), "comments") == Ok(JArr(RepliesJson(c.replies)))
  {
    CommentJsonLookups(c);
    SpacedTextOfStrings(c.blocks);
  }

  /** Parsing an encoded comment tree yields exactly its pre-order list of tuples. */
  lemma {:induction false} ParseCommentTreeJson(c: Comment)
    ensures ParseCommentTree(CommentJson(c)) == Ok(PreOrder(c))
    decreases c, 1
  {
    var j := CommentJson(c);
    ParsedCommentJson(c);
    var items := RepliesJson(c.replies);
    var first := Parsed(AuthorJson(c.author), SpacedStrings(c.blocks));
    if c.replies != [] {
      assert Truthy(JArr(items));
      assert Iterate(JArr(items)) == Ok(items);
      CommentJsonLookups(c);
      ParseRepliesJson(c.replies, JSize(j));
      assert ParseCommentTree(j) == Ok([first] + ForestPreOrder(c.replies));
    } else {
      assert !Truthy(JArr(items));
      assert ParseCommentTree(j) == Ok([first]);
      assert ForestPreOrder(c.replies) == [];
      assert PreOrder(c) == [first] + [];
      assert [first] + [] == [first];
    }
  }

  lemma {:induction false} ParseRepliesJson(cs: seq<Comment>, bound: nat)
    requires bound >= 1
    requires forall i :: 0 <= i < |cs| && RepliesJson(cs)[i].JObj? ==> JSize(RepliesJson(cs)[i]) < bound
    ensures ParseReplies(RepliesJson(cs), bound) == Ok(ForestPreOrder(cs))
    decreases cs, 0
  {
    if cs != [] {
      var items := RepliesJson(cs);
      assert items[1..] == RepliesJson(cs[1..]);
      ParseCommentTreeJson(cs[0]);
      ParseRepliesJson(cs[1..], bound);
    }
  }

  /** Together: parsing an encoded tree gives one tuple per comment. */
  lemma ParseCommentTreeCount(c: Comment)
    ensures ParseCommentTree(CommentJson(c)).Ok?
    ensures |ParseCommentTree(CommentJson(c)).value| == Size(c)
  {
    ParseCommentTreeJson(c);
    PreOrderSize(c);
  }
}
