/** Turning the subreddit listing and the comment listings into posts and
    comment trees. The HTTP requests are parameters of `FetchSubredditPosts`. */
module PostFetcher {
  import opened Wrappers
  import opened Json
  import opened Data

  /** Posts whose domain is this self-post domain get an empty `urlDomain`. */
  const SelfPostDomain: string := "self.LocalLLaMA"
  /** The listing kind of a comment. */
  const CommentKind: string := "t1"
  const DefaultMinScore: int := 2

  // ===========================================================================
  // Posts
  // ===========================================================================

  /** The first and one past the last second `datetime` can represent in UTC:
      0001-01-01T00:00:00 and 10000-01-01T00:00:00. */
  const MinTimestamp: int := -62135596800
  const MaxTimestamp: int := 253402300800

  /** The value of a JSON number. */
  function NumberValue(j: Json): real
    requires j.JInt? || j.JFloat?
  {
    if j.JInt? then j.i as real else j.f
  }

  /** `datetime.fromtimestamp(t, tz=timezone.utc)`: a number naming a second
      of the years 1 to 9999; other numbers are out of range, and anything
      else is not a number. */
  function FromTimestamp(j: Json): (r: PyResult<real>)
    ensures r.Success? <==>
      (j.JInt? || j.JFloat?) && MinTimestamp as real <= NumberValue(j) < MaxTimestamp as real
    ensures r.Success? ==> r.value == NumberValue(j)
    ensures (j.JInt? || j.JFloat?) && r.Failure? ==> r.error.ValueError?
    ensures !(j.JInt? || j.JFloat?) ==> r.Failure? && r.error.TypeError?
  {
    match j
    case JInt(_) | JFloat(_) =>
      var t := NumberValue(j);
      if MinTimestamp as real <= t < MaxTimestamp as real then Success(t)
      else Failure(ValueError("year is out of range"))
    case _ => Failure(TypeError("'created_utc' is not a number"))
  }

  /** The domain rule: the self-post domain becomes the empty string. */
  function UrlDomain(domain: Json): Json {
    if domain == JStr(SelfPostDomain) then JStr("") else domain
  }

  /** One listing child to a `Post`. Look-ups happen in the order of the
      keyword arguments; the record's field checks come after all of them. */
  function PostFromChild(child: Json): (r: PyResult<Post>)
    ensures r.Success? ==> child.JObj? && HasKey(child, "data")
    ensures r.Success? ==>
      var d := Lookup(child, "data");
      && d.JObj?
      && HasKey(d, "title") && Lookup(d, "title") == JStr(r.value.title)
      && HasKey(d, "selftext") && Lookup(d, "selftext") == JStr(r.value.text)
      && HasKey(d, "author") && Lookup(d, "author") == JStr(r.value.author)
      && HasKey(d, "permalink") && Lookup(d, "permalink") == JStr(r.value.permalink)
      && HasKey(d, "link_flair_text")
      && (r.value.category.None? <==> Lookup(d, "link_flair_text") == JNull)
      && (r.value.category.Some? ==> Lookup(d, "link_flair_text") == JStr(r.value.category.value))
      && HasKey(d, "score") && AsInt(Lookup(d, "score"), "score") == Success(r.value.score)
      && HasKey(d, "num_comments")
      && AsInt(Lookup(d, "num_comments"), "n_comments") == Success(r.value.nComments)
      && HasKey(d, "domain")
      && (Lookup(d, "domain") == JStr(SelfPostDomain) ==> r.value.urlDomain == "")
      && (Lookup(d, "domain") != JStr(SelfPostDomain) ==> Lookup(d, "domain") == JStr(r.value.urlDomain))
    ensures r.Success? ==> r.value.comments == [] && r.value.analysis == None
  {
    var d :- Index(child, "data");
    var title :- Index(d, "title");
    var selftext :- Index(d, "selftext");
    var author :- Index(d, "author");
    var flair :- Index(d, "link_flair_text");
    var score :- Index(d, "score");
    var ratio :- Index(d, "upvote_ratio");
    var permalink :- Index(d, "permalink");
    var domain :- Index(d, "domain");
    var numComments :- Index(d, "num_comments");
    var createdUtc :- Index(d, "created_utc");
    var createdAt :- FromTimestamp(createdUtc);
    var permalinkValue :- AsStr(permalink, "permalink");
    var titleValue :- AsStr(title, "title");
    var textValue :- AsStr(selftext, "text");
    var authorValue :- AsStr(author, "author");
    var category :- AsOptStr(flair, "category");
    var scoreValue :- AsInt(score, "score");
    var ratioValue :- AsReal(ratio, "upvote_ratio");
    var count :- AsInt(numComments, "n_comments");
    var urlDomain :- AsStr(UrlDomain(domain), "url_domain");
    Success(NewPost(permalinkValue, titleValue, textValue, authorValue, category, scoreValue,
                    ratioValue, count, urlDomain, createdAt))
  }

  /** One post per child, in order; the first child that cannot be read fails the lot. */
  function PostsFromChildren(children: seq<Json>): (r: PyResult<seq<Post>>)
    ensures r.Success? <==> forall i :: 0 <= i < |children| ==> PostFromChild(children[i]).Success?
    ensures r.Success? ==> |r.value| == |children|
    ensures r.Success? ==> forall i :: 0 <= i < |children| ==> PostFromChild(children[i]) == Success(r.value[i])
  {
    MapAll(PostFromChild, children)
  }

  /** `_extract_posts`: the posts of `data.children` of a subreddit listing. */
  function ExtractPosts(listing: Json): (r: PyResult<seq<Post>>)
    ensures r.Success? ==> listing.JObj? && HasKey(listing, "data")
    ensures r.Success? ==> forall i :: 0 <= i < |r.value| ==> r.value[i].comments == [] && r.value[i].analysis == None
    ensures r.Success? && IsListing(listing) ==> |r.value| == |ListingChildren(listing)|
    ensures r.Success? && IsListing(listing) ==>
      forall i :: 0 <= i < |r.value| ==> PostFromChild(ListingChildren(listing)[i]) == Success(r.value[i])
  {
    var d :- Index(listing, "data");
    var childrenJson :- Index(d, "children");
    var children :- Iterate(childrenJson);
    PostsFromChildren(children)
  }

  /** A listing whose `data.children` is a list. */
  predicate IsListing(j: Json) {
    && j.JObj? && HasKey(j, "data")
    && Lookup(j, "data").JObj? && HasKey(Lookup(j, "data"), "children")
    && Lookup(Lookup(j, "data"), "children").JList?
  }

  function ListingChildren(j: Json): (r: seq<Json>)
    requires IsListing(j)
    ensures forall c :: c in r ==> Size(c) < Size(j)
  {
    var items := Lookup(Lookup(j, "data"), "children").items;
    assert forall c :: c in items ==> Size(c) < Size(j) by {
      forall c | c in items ensures Size(c) < Size(j) {
        var i :| 0 <= i < |items| && items[i] == c;
        ItemSmaller(items, i);
      }
    }
    items
  }

  // ===========================================================================
  // Comments
  // ===========================================================================

  /** Top-level comments score at least `top`, all replies at every depth at least `nested`. */
  predicate ScoresAtLeast(cs: seq<Comment>, top: int, nested: int)
    decreases cs
  {
    forall i :: 0 <= i < |cs| ==> cs[i].score >= top && ScoresAtLeast(cs[i].replies, nested, nested)
  }

  /** No comment lies more than `levels` reply levels below the top level. */
  predicate WithinDepth(cs: seq<Comment>, levels: nat)
    decreases cs
  {
    forall i :: 0 <= i < |cs| ==>
      if levels == 0 then cs[i].replies == [] else WithinDepth(cs[i].replies, levels - 1)
  }

  /** Reply levels still allowed below `depth` under the cap `maxDepth`. */
  function Levels(maxDepth: int, depth: int): nat {
    if maxDepth - depth > 0 then maxDepth - depth else 0
  }

  /** The `replies` of a comment's data are read only when they are a non-empty dict. */
  predicate HasReplyListing(d: Json)
    requires d.JObj?
  {
    HasKey(d, "replies") && Truthy(Lookup(d, "replies")) && Lookup(d, "replies").JObj?
  }

  /** A child the extraction turns into a comment: a dict of kind "t1" whose
      data has a numeric score of at least `minScore`. */
  predicate Kept(child: Json, minScore: int) {
    && child.JObj? && HasKey(child, "kind") && Lookup(child, "kind") == JStr(CommentKind)
    && HasKey(child, "data") && Lookup(child, "data").JObj?
    && HasKey(Lookup(child, "data"), "score")
    && LessThan(Lookup(Lookup(child, "data"), "score"), minScore) == Success(false)
  }

  /** The children that are kept, in order. */
  function KeptChildren(children: seq<Json>, minScore: int): (r: seq<Json>)
    ensures |r| <= |children|
    ensures forall i :: 0 <= i < |r| ==> Kept(r[i], minScore) && r[i] in children
  {
    if |children| == 0 then []
    else (if Kept(children[0], minScore) then [children[0]] else []) + KeptChildren(children[1..], minScore)
  }

  /** `c` carries the body, author and score of the kept child `child`; its
      replies are the extraction of the child's non-empty reply dict one level
      down while the cap allows it, and none otherwise. */
  predicate Describes(c: Comment, child: Json, maxDepth: int, depth: int, minScore: int)
    decreases Size(child), 0, 0
  {
    && Kept(child, minScore)
    && var d := Lookup(child, "data");
    && HasKey(d, "body") && Lookup(d, "body") == JStr(c.text)
    && HasKey(d, "author") && Lookup(d, "author") == JStr(c.author)
    && AsInt(Lookup(d, "score"), "score") == Success(c.score)
    && if HasReplyListing(d) && (maxDepth == -1 || depth < maxDepth)
       then ExtractComments(Lookup(d, "replies"), maxDepth, depth + 1) == Success(c.replies)
       else c.replies == []
  }

  /** `_extract_comments(data, max_depth, current_depth, min_score)`. A list
      input is the concatenation of its items' extractions, which drops
      `min_score`; a dict contributes the kept children of `data.children`;
      anything else contributes nothing. */
  function ExtractComments(data: Json, maxDepth: int := -1, depth: int := 0,
                           minScore: int := DefaultMinScore): (r: PyResult<seq<Comment>>)
    ensures r.Success? ==> ScoresAtLeast(r.value, if data.JList? then DefaultMinScore else minScore, DefaultMinScore)
    ensures r.Success? && maxDepth != -1 ==> WithinDepth(r.value, Levels(maxDepth, depth))
    ensures r.Success? && IsListing(data) ==>
      && |r.value| == |KeptChildren(ListingChildren(data), minScore)|
      && forall i :: 0 <= i < |r.value| ==>
           Describes(r.value[i], KeptChildren(ListingChildren(data), minScore)[i], maxDepth, depth, minScore)
    ensures !(data.JList? || data.JObj?) ==> r == Success([])
    ensures data.JObj? && !HasKey(data, "data") ==> r == Success([])
    ensures data.JObj? && HasKey(data, "data") && In("children", Lookup(data, "data")) == Success(false)
      ==> r == Success([])
    decreases Size(data), 0, 0
  {
    match data
    case JList(items) => ExtractEach(items, maxDepth, depth)
    case JObj(_) =>
      if !HasKey(data, "data") then Success([])
      else
        var listing := Lookup(data, "data");
        var hasChildren :- In("children", listing);
        if !hasChildren then Success([])
        else
          var childrenJson :- Index(listing, "children");
          var children :- Iterate(childrenJson);
          ExtractChildren(children, Size(data) - 1, maxDepth, depth, minScore)
    case _ => Success([])
  }

  /** The items of a list input, each extracted with the default `min_score`. */
  function ExtractEach(items: seq<Json>, maxDepth: int, depth: int): (r: PyResult<seq<Comment>>)
    ensures r.Success? ==> ScoresAtLeast(r.value, DefaultMinScore, DefaultMinScore)
    ensures r.Success? && maxDepth != -1 ==> WithinDepth(r.value, Levels(maxDepth, depth))
    decreases ItemsSize(items), 1, 0
  {
    if |items| == 0 then Success([])
    else
      var first :- ExtractComments(items[0], maxDepth, depth);
      var rest :- ExtractEach(items[1..], maxDepth, depth);
      ScoresAppend(first, rest, DefaultMinScore, DefaultMinScore);
      CapAppend(first, rest, maxDepth, depth);
      Success(first + rest)
  }

  /** The children of `data.children`, in order. */
  function ExtractChildren(children: seq<Json>, ghost bound: nat, maxDepth: int, depth: int,
                           minScore: int): (r: PyResult<seq<Comment>>)
    requires forall c :: c in children ==> Size(c) < bound
    ensures r.Success? ==> |r.value| == |KeptChildren(children, minScore)|
    ensures r.Success? ==> forall i :: 0 <= i < |r.value| ==>
      Describes(r.value[i], KeptChildren(children, minScore)[i], maxDepth, depth, minScore)
    ensures r.Success? ==> ScoresAtLeast(r.value, minScore, DefaultMinScore)
    ensures r.Success? && maxDepth != -1 ==> WithinDepth(r.value, Levels(maxDepth, depth))
    decreases bound, 1, |children|
  {
    if |children| == 0 then Success([])
    else
      var first :- ExtractChild(children[0], bound, maxDepth, depth, minScore);
      var rest :- ExtractChildren(children[1..], bound, maxDepth, depth, minScore);
      SelectionAppend(children, c => Kept(c, minScore), (c, j) => Size(j) < bound && Describes(c, j, maxDepth, depth, minScore),
                      first, rest, KeptChildren(children[1..], minScore), KeptChildren(children, minScore));
      ScoresAppend(first, rest, minScore, DefaultMinScore);
      CapAppend(first, rest, maxDepth, depth);
      Success(first + rest)
  }

  /** One child: nothing for another kind or a score below `minScore` (its
      replies are then never visited), otherwise one comment. */
  function ExtractChild(child: Json, ghost bound: nat, maxDepth: int, depth: int,
                        minScore: int): (r: PyResult<seq<Comment>>)
    requires Size(child) < bound
    ensures r.Success? ==> |r.value| <= 1
    ensures r.Success? ==> (|r.value| == 1 <==> Kept(child, minScore))
    ensures r.Success? && |r.value| == 1 ==> Describes(r.value[0], child, maxDepth, depth, minScore)
    ensures r.Success? ==> ScoresAtLeast(r.value, minScore, DefaultMinScore)
    ensures r.Success? && maxDepth != -1 ==> WithinDepth(r.value, Levels(maxDepth, depth))
    decreases bound, 1, 0
  {
    var kind :- Get(child, "kind", JNull);
    if kind != JStr(CommentKind) then Success([])
    else ExtractKindComment(child, bound, maxDepth, depth, minScore)
  }

  /** A child of the comment kind: its score decides whether it is kept. */
  function ExtractKindComment(child: Json, ghost bound: nat, maxDepth: int, depth: int,
                              minScore: int): (r: PyResult<seq<Comment>>)
    requires Size(child) < bound
    requires child.JObj? && HasKey(child, "kind") && Lookup(child, "kind") == JStr(CommentKind)
    ensures r.Success? ==> |r.value| <= 1
    ensures r.Success? ==> (|r.value| == 1 <==> Kept(child, minScore))
    ensures r.Success? && |r.value| == 1 ==> Describes(r.value[0], child, maxDepth, depth, minScore)
    ensures r.Success? ==> ScoresAtLeast(r.value, minScore, DefaultMinScore)
    ensures r.Success? && maxDepth != -1 ==> WithinDepth(r.value, Levels(maxDepth, depth))
    ensures !HasKey(child, "data") ==> r == Failure(KeyError("score"))
    ensures HasKey(child, "data") && Lookup(child, "data").JObj? && !HasKey(Lookup(child, "data"), "score")
      ==> r == Failure(KeyError("score"))
    decreases bound, 0, 3
  {
    var childData := if HasKey(child, "data") then Lookup(child, "data") else JObj([]);
    var scoreJson :- Index(childData, "score");
    var below :- LessThan(scoreJson, minScore);
    if below then Success([])
    else KeptComment(child, bound, maxDepth, depth, minScore)
  }

  /** A kept child: its replies, then the comment itself. */
  function KeptComment(child: Json, ghost bound: nat, maxDepth: int, depth: int,
                       minScore: int): (r: PyResult<seq<Comment>>)
    requires Size(child) < bound && Kept(child, minScore)
    ensures r.Success? ==> |r.value| == 1 && Describes(r.value[0], child, maxDepth, depth, minScore)
    ensures r.Success? ==> ScoresAtLeast(r.value, minScore, DefaultMinScore)
    ensures r.Success? && maxDepth != -1 ==> WithinDepth(r.value, Levels(maxDepth, depth))
    decreases bound, 0, 2
  {
    var childData := Lookup(child, "data");
    var scoreJson := Lookup(childData, "score");
    var commentReplies :- RepliesOf(childData, bound, maxDepth, depth);
    var c :- CommentFrom(childData, scoreJson, commentReplies);
    NotBelow(scoreJson, minScore, "score");
    OneLevelDown(c, maxDepth, depth);
    Success([c])
  }

  /** A comment whose replies keep to the cap one level down keeps to it. */
  lemma OneLevelDown(c: Comment, maxDepth: int, depth: int)
    requires maxDepth != -1 ==>
      if depth < maxDepth then WithinDepth(c.replies, Levels(maxDepth, depth + 1)) else c.replies == []
    ensures maxDepth != -1 ==> WithinDepth([c], Levels(maxDepth, depth))
  {
    if maxDepth != -1 {
      var levels := Levels(maxDepth, depth);
      if depth < maxDepth {
        assert levels - 1 == Levels(maxDepth, depth + 1);
      }
      assert [c][0] == c;
    }
  }

  /** The replies of a kept child: its non-empty reply listing, one level
      further down, while the depth cap allows it, and none otherwise. */
  function RepliesOf(childData: Json, ghost bound: nat, maxDepth: int, depth: int): (r: PyResult<seq<Comment>>)
    requires childData.JObj? && Size(childData) < bound
    ensures r.Success? ==> ScoresAtLeast(r.value, DefaultMinScore, DefaultMinScore)
    ensures r.Success? && maxDepth != -1 ==>
      if depth < maxDepth then WithinDepth(r.value, Levels(maxDepth, depth + 1)) else r.value == []
    ensures HasReplyListing(childData) && (maxDepth == -1 || depth < maxDepth) ==>
      r == ExtractComments(Lookup(childData, "replies"), maxDepth, depth + 1)
    ensures !(HasReplyListing(childData) && (maxDepth == -1 || depth < maxDepth)) ==> r == Success([])
    decreases bound, 0, 1
  {
    var replies := if HasKey(childData, "replies") then Lookup(childData, "replies") else JNull;
    if Truthy(replies) && replies.JObj? && (maxDepth == -1 || depth < maxDepth)
    then ExtractComments(replies, maxDepth, depth + 1)
    else Success([])
  }

  /** The `Comment` built from a child's data, which validates the body,
      author and score. */
  function CommentFrom(childData: Json, scoreJson: Json, replies: seq<Comment>): (r: PyResult<Comment>)
    ensures r.Success? ==>
      && childData.JObj? && HasKey(childData, "body") && Lookup(childData, "body") == JStr(r.value.text)
      && HasKey(childData, "author") && Lookup(childData, "author") == JStr(r.value.author)
      && AsInt(scoreJson, "score") == Success(r.value.score) && r.value.replies == replies
    ensures !childData.JObj? ==> r.Failure?
  {
    var body :- Index(childData, "body");
    var author :- Index(childData, "author");
    var text :- AsStr(body, "text");
    var authorName :- AsStr(author, "author");
    var score :- AsInt(scoreJson, "score");
    Success(Comment(text, authorName, score, replies))
  }

  /** Selecting from the first element and then from the rest selects from
      the whole sequence, pairing results and selected elements in order. */
  lemma SelectionAppend<C, J>(xs: seq<J>, keep: J -> bool, pairs: (C, J) -> bool,
                              first: seq<C>, rest: seq<C>, tail: seq<J>, whole: seq<J>)
    requires |xs| > 0 && |first| <= 1
    requires |first| == 1 <==> keep(xs[0])
    requires |first| == 1 ==> pairs(first[0], xs[0])
    requires whole == (if keep(xs[0]) then [xs[0]] else []) + tail
    requires |rest| == |tail|
    requires forall i :: 0 <= i < |rest| ==> pairs(rest[i], tail[i])
    ensures |first + rest| == |whole|
    ensures forall i :: 0 <= i < |first + rest| ==> pairs((first + rest)[i], whole[i])
  {
    forall i | 0 <= i < |first + rest|
      ensures pairs((first + rest)[i], whole[i])
    {
      if i < |first| {
        assert (first + rest)[i] == first[0];
        assert whole[i] == xs[0];
      } else {
        assert (first + rest)[i] == rest[i - |first|];
        assert whole[i] == tail[i - |first|];
      }
    }
  }

  lemma ScoresAppend(a: seq<Comment>, b: seq<Comment>, top: int, nested: int)
    requires ScoresAtLeast(a, top, nested) && ScoresAtLeast(b, top, nested)
    ensures ScoresAtLeast(a + b, top, nested)
  {
    forall i | 0 <= i < |a + b|
      ensures (a + b)[i].score >= top && ScoresAtLeast((a + b)[i].replies, nested, nested)
    {
      if i < |a| {
        assert (a + b)[i] == a[i];
      } else {
        assert (a + b)[i] == b[i - |a|];
      }
    }
  }

  /** The depth cap, when there is one, survives concatenation. */
  lemma CapAppend(a: seq<Comment>, b: seq<Comment>, maxDepth: int, depth: int)
    requires maxDepth != -1 ==> WithinDepth(a, Levels(maxDepth, depth)) && WithinDepth(b, Levels(maxDepth, depth))
    ensures maxDepth != -1 ==> WithinDepth(a + b, Levels(maxDepth, depth))
  {
    if maxDepth != -1 {
      WithinDepthAppend(a, b, Levels(maxDepth, depth));
    }
  }

  lemma WithinDepthAppend(a: seq<Comment>, b: seq<Comment>, levels: nat)
    requires WithinDepth(a, levels) && WithinDepth(b, levels)
    ensures WithinDepth(a + b, levels)
  {
    forall i | 0 <= i < |a + b|
      ensures if levels == 0 then (a + b)[i].replies == [] else WithinDepth((a + b)[i].replies, levels - 1)
    {
      if i < |a| {
        assert (a + b)[i] == a[i];
      } else {
        assert (a + b)[i] == b[i - |a|];
      }
    }
  }

  // ===========================================================================
  // fetch_subreddit_posts
  // ===========================================================================

  /** Each post with the comments extracted from its own comment listing. */
  function AttachComments(fetchComments: (string, int) -> PyResult<Json>, posts: seq<Post>,
                          limit: int): (r: PyResult<seq<Post>>)
    ensures r.Success? ==> |r.value| == |posts|
    ensures r.Success? ==> forall i :: 0 <= i < |posts| ==>
      && fetchComments(posts[i].permalink, limit).Success?
      && ExtractComments(fetchComments(posts[i].permalink, limit).value).Success?
      && r.value[i] == posts[i].(comments := ExtractComments(fetchComments(posts[i].permalink, limit).value).value)
  {
    if |posts| == 0 then Success([])
    else
      var listing :- fetchComments(posts[0].permalink, limit);
      var comments :- ExtractComments(listing);
      var rest :- AttachComments(fetchComments, posts[1..], limit);
      Success([posts[0].(comments := comments)] + rest)
  }

  /** `fetch_subreddit_posts`: the listing request, the posts, then one
      comment request per post with the default extraction settings. */
  function FetchSubredditPosts(
    fetchListing: (string, int) -> PyResult<Json>,
    fetchComments: (string, int) -> PyResult<Json>,
    subreddit: string, maxPosts: int := 10, maxCommentsPerPost: int := 30): (r: PyResult<seq<Post>>)
    ensures r.Success? ==> fetchListing(subreddit, maxPosts).Success?
    ensures r.Success? ==>
      var posts := ExtractPosts(fetchListing(subreddit, maxPosts).value);
      && posts.Success? && |r.value| == |posts.value|
      && forall i :: 0 <= i < |r.value| ==> r.value[i] == posts.value[i].(comments := r.value[i].comments)
    ensures r.Success? ==> forall i :: 0 <= i < |r.value| ==>
      && r.value[i].analysis == None
      && ScoresAtLeast(r.value[i].comments, DefaultMinScore, DefaultMinScore)
    ensures r.Success? ==> forall i :: 0 <= i < |r.value| ==>
      && fetchComments(r.value[i].permalink, maxCommentsPerPost).Success?
      && ExtractComments(fetchComments(r.value[i].permalink, maxCommentsPerPost).value)
           == Success(r.value[i].comments)
  {
    var listing :- fetchListing(subreddit, maxPosts);
    var posts :- ExtractPosts(listing);
    AttachComments(fetchComments, posts, maxCommentsPerPost)
  }

  // ===========================================================================
  // Properties of the comment extraction
  // ===========================================================================

  /** Sequencing two extractions: the first failure, or both results in order. */
  function Then(a: PyResult<seq<Comment>>, b: PyResult<seq<Comment>>): PyResult<seq<Comment>> {
    match a
    case Failure(e) => Failure(e)
    case Success(x) =>
      match b
      case Failure(e) => Failure(e)
      case Success(y) => Success(x + y)
  }

  lemma {:induction false} ExtractEachAppend(xs: seq<Json>, ys: seq<Json>, maxDepth: int, depth: int)
    ensures ExtractEach(xs + ys, maxDepth, depth) == Then(ExtractEach(xs, maxDepth, depth), ExtractEach(ys, maxDepth, depth))
  {
    if |xs| == 0 {
      assert xs + ys == ys;
      match ExtractEach(ys, maxDepth, depth)
      case Failure(_) =>
      case Success(y) => assert [] + y == y;
    } else {
      assert (xs + ys)[0] == xs[0];
      assert (xs + ys)[1..] == xs[1..] + ys;
      ExtractEachAppend(xs[1..], ys, maxDepth, depth);
      match ExtractComments(xs[0], maxDepth, depth)
      case Failure(_) =>
      case Success(first) =>
        match ExtractEach(xs[1..], maxDepth, depth)
        case Failure(_) =>
        case Success(rest) =>
          match ExtractEach(ys, maxDepth, depth)
          case Failure(_) =>
          case Success(y) => assert first + (rest + y) == (first + rest) + y;
    }
  }

  /** A list input is the in-order concatenation of its items' extractions:
      `min_score` is not passed on, so every item uses the default threshold. */
  lemma ListInput(xs: seq<Json>, ys: seq<Json>, x: Json, maxDepth: int, depth: int, minScore: int)
    ensures ExtractComments(JList(xs + ys), maxDepth, depth, minScore)
      == Then(ExtractComments(JList(xs), maxDepth, depth), ExtractComments(JList(ys), maxDepth, depth))
    ensures ExtractComments(JList([x]), maxDepth, depth, minScore) == ExtractComments(x, maxDepth, depth)
  {
    ExtractEachAppend(xs, ys, maxDepth, depth);
    match ExtractComments(x, maxDepth, depth)
    case Failure(_) =>
    case Success(c) =>
      assert [x][0] == x && [x][1..] == [];
      assert ExtractEach([x][1..], maxDepth, depth) == Success([]);
      assert c + [] == c;
  }

  /** With a cap of zero levels no top-level comment has replies. */
  lemma DepthZeroIsFlat(data: Json, minScore: int)
    ensures ExtractComments(data, 0, 0, minScore).Success? ==>
      forall i :: 0 <= i < |ExtractComments(data, 0, 0, minScore).value| ==>
        ExtractComments(data, 0, 0, minScore).value[i].replies == []
  {
  }

  function Obj1(k: string, v: Json): Json { JObj([(k, v)]) }

  /** A comment child whose data holds the given fields. */
  function CommentChild(data: seq<(string, Json)>): Json {
    JObj([("kind", JStr(CommentKind)), ("data", JObj(data))])
  }

  /** A comment child without replies. */
  function LeafChild(score: int, body: string, author: string): Json {
    CommentChild([("score", JInt(score)), ("body", JStr(body)), ("author", JStr(author))])
  }

  /** A comment of score `score` whose single reply scores `replyScore`. */
  function ParentExample(score: int, replyScore: int := 10): Json {
    CommentChild([("score", JInt(score)), ("body", JStr("parent")), ("author", JStr("a")),
                  ("replies", ListingOf(LeafChild(replyScore, "reply", "b")))])
  }

  /** The listing holding just `child`. */
  function ListingOf(child: Json): Json {
    Obj1("data", Obj1("children", JList([child])))
  }

  lemma SizeOfListing(child: Json)
    ensures Size(ListingOf(child)) == 3 + Size(child)
  {
    var items := [child];
    assert items[1..] == [];
    assert ItemsSize(items) == Size(child) + ItemsSize([]);
    var inner := [("children", JList(items))];
    assert inner[1..] == [];
    assert FieldsSize(inner) == Size(JList(items)) + FieldsSize([]);
    var outer := [("data", Obj1("children", JList(items)))];
    assert outer[1..] == [];
    assert FieldsSize(outer) == Size(Obj1("children", JList(items))) + FieldsSize([]);
  }

  lemma Obj1Lookup(k: string, v: Json)
    ensures HasKey(Obj1(k, v), k) && Lookup(Obj1(k, v), k) == v
  {
    FindUnique([(k, v)], k, 0);
  }

  /** The children sequence of one child extracts that child. */
  lemma SingleChild(child: Json, bound: nat, maxDepth: int, depth: int, minScore: int)
    requires Size(child) < bound
    ensures ExtractChildren([child], bound, maxDepth, depth, minScore)
      == ExtractChild(child, bound, maxDepth, depth, minScore)
  {
    assert [child][0] == child && [child][1..] == [];
    assert ExtractChildren([child][1..], bound, maxDepth, depth, minScore) == Success([]);
    match ExtractChild(child, bound, maxDepth, depth, minScore)
    case Failure(_) =>
    case Success(c) => assert c + [] == c;
  }

  /** Extracting a one-child listing is extracting that child. */
  lemma {:induction false} SingleChildListing(child: Json, maxDepth: int, depth: int)
    ensures Size(child) < Size(ListingOf(child)) - 1
    ensures ExtractComments(ListingOf(child), maxDepth, depth)
      == ExtractChild(child, Size(ListingOf(child)) - 1, maxDepth, depth, DefaultMinScore)
  {
    var t := ListingOf(child);
    SizeOfListing(child);
    Obj1Lookup("data", Obj1("children", JList([child])));
    Obj1Lookup("children", JList([child]));
    SingleChild(child, Size(t) - 1, maxDepth, depth, DefaultMinScore);
  }

  /** A comment below the threshold contributes nothing, whatever its replies hold. */
  lemma LowScoreDropped(child: Json, bound: nat, maxDepth: int, depth: int, minScore: int)
    requires Size(child) < bound
    requires child.JObj? && HasKey(child, "kind") && Lookup(child, "kind") == JStr(CommentKind)
    requires HasKey(child, "data") && Lookup(child, "data").JObj? && HasKey(Lookup(child, "data"), "score")
    requires LessThan(Lookup(Lookup(child, "data"), "score"), minScore) == Success(true)
    ensures ExtractChild(child, bound, maxDepth, depth, minScore) == Success([])
  {
  }

  /** A one-child listing whose child is a comment below the threshold gives nothing. */
  lemma LowScoreListing(child: Json)
    requires child.JObj? && HasKey(child, "kind") && Lookup(child, "kind") == JStr(CommentKind)
    requires HasKey(child, "data") && Lookup(child, "data").JObj? && HasKey(Lookup(child, "data"), "score")
    requires LessThan(Lookup(Lookup(child, "data"), "score"), DefaultMinScore) == Success(true)
    ensures ExtractComments(ListingOf(child)) == Success([])
  {
    SingleChildListing(child, -1, 0);
    LowScoreDropped(child, Size(ListingOf(child)) - 1, -1, 0, DefaultMinScore);
  }

  /** The example parent is a comment child with the given score. */
  lemma ParentExampleFields(score: int, replyScore: int)
    ensures var parent := ParentExample(score, replyScore);
      && parent.JObj? && HasKey(parent, "kind") && Lookup(parent, "kind") == JStr(CommentKind)
      && HasKey(parent, "data") && Lookup(parent, "data").JObj?
      && HasKey(Lookup(parent, "data"), "score") && Lookup(Lookup(parent, "data"), "score") == JInt(score)
  {
    var parent := ParentExample(score, replyScore);
    FindUnique(parent.fields, "kind", 0);
    FindUnique(parent.fields, "data", 1);
    FindUnique(Lookup(parent, "data").fields, "score", 0);
  }

  /** A parent below the threshold is dropped with its whole subtree, though
      its reply alone would pass. */
  lemma LowScorePrunesSubtree()
    ensures ExtractComments(ListingOf(ParentExample(1))) == Success([])
  {
    ParentExampleFields(1, 10);
    LowScoreListing(ParentExample(1));
  }

  /** A one-child listing extracts to what its child extracts to. */
  lemma ListingExtractsTo(child: Json, bound: nat, maxDepth: int, depth: int, cs: seq<Comment>)
    requires bound == Size(ListingOf(child)) - 1 && Size(child) < bound
    requires ExtractChild(child, bound, maxDepth, depth, DefaultMinScore) == Success(cs)
    ensures ExtractComments(ListingOf(child), maxDepth, depth) == Success(cs)
  {
    SingleChildListing(child, maxDepth, depth);
  }

  /** A leaf child at or above the threshold is kept as a leaf comment. */
  lemma LeafExtracted(score: int, body: string, author: string, bound: nat, maxDepth: int, depth: int)
    requires score >= DefaultMinScore && Size(LeafChild(score, body, author)) < bound
    ensures ExtractChild(LeafChild(score, body, author), bound, maxDepth, depth, DefaultMinScore)
      == Success([Comment(body, author, score, [])])
  {
    var child := LeafChild(score, body, author);
    FindUnique(child.fields, "kind", 0);
    FindUnique(child.fields, "data", 1);
    var d := Lookup(child, "data");
    FindUnique(d.fields, "score", 0);
    FindUnique(d.fields, "body", 1);
    FindUnique(d.fields, "author", 2);
    assert !HasKey(d, "replies");
    assert RepliesOf(d, bound, maxDepth, depth) == Success([]);
    assert CommentFrom(d, JInt(score), []) == Success(Comment(body, author, score, []));
    assert KeptComment(child, bound, maxDepth, depth, DefaultMinScore) == Success([Comment(body, author, score, [])]);
  }

  /** The listing of one such leaf extracts to that leaf. */
  lemma LeafListingExtracted(score: int, body: string, author: string, maxDepth: int, depth: int)
    requires score >= DefaultMinScore
    ensures ExtractComments(ListingOf(LeafChild(score, body, author)), maxDepth, depth)
      == Success([Comment(body, author, score, [])])
  {
    var child := LeafChild(score, body, author);
    SizeOfListing(child);
    var bound := Size(ListingOf(child)) - 1;
    LeafExtracted(score, body, author, bound, maxDepth, depth);
    ListingExtractsTo(child, bound, maxDepth, depth, [Comment(body, author, score, [])]);
  }

  /** The example parent's data: its body, author and reply listing. */
  lemma ParentExampleData(score: int, replyScore: int)
    ensures var d := Lookup(ParentExample(score, replyScore), "data");
      && d.JObj?
      && HasKey(d, "body") && Lookup(d, "body") == JStr("parent")
      && HasKey(d, "author") && Lookup(d, "author") == JStr("a")
      && HasReplyListing(d) && Lookup(d, "replies") == ListingOf(LeafChild(replyScore, "reply", "b"))
  {
    var parent := ParentExample(score, replyScore);
    FindUnique(parent.fields, "data", 1);
    var d := Lookup(parent, "data");
    FindUnique(d.fields, "body", 1);
    FindUnique(d.fields, "author", 2);
    FindUnique(d.fields, "replies", 3);
  }

  /** Without a depth cap the example parent's replies are its one reply. */
  lemma ParentExampleReplies(score: int, replyScore: int, bound: nat, depth: int)
    requires replyScore >= DefaultMinScore
    requires Size(Lookup(ParentExample(score, replyScore), "data")) < bound
    ensures RepliesOf(Lookup(ParentExample(score, replyScore), "data"), bound, -1, depth)
      == Success([Comment("reply", "b", replyScore, [])])
  {
    ParentExampleData(score, replyScore);
    LeafListingExtracted(replyScore, "reply", "b", -1, depth + 1);
  }

  /** Without a depth cap the example parent is kept with its reply. */
  lemma ParentExtracted(score: int, replyScore: int, bound: nat, depth: int)
    requires score >= DefaultMinScore && replyScore >= DefaultMinScore
    requires Size(ParentExample(score, replyScore)) < bound
    ensures ExtractChild(ParentExample(score, replyScore), bound, -1, depth, DefaultMinScore)
      == Success([Comment("parent", "a", score, [Comment("reply", "b", replyScore, [])])])
  {
    var parent := ParentExample(score, replyScore);
    var reply := Comment("reply", "b", replyScore, []);
    ParentExampleFields(score, replyScore);
    ParentExampleData(score, replyScore);
    var d := Lookup(parent, "data");
    ParentExampleReplies(score, replyScore, bound, depth);
    assert CommentFrom(d, JInt(score), [reply]) == Success(Comment("parent", "a", score, [reply]));
    assert KeptComment(parent, bound, -1, depth, DefaultMinScore) == Success([Comment("parent", "a", score, [reply])]);
  }

  /** A parent at or above the threshold keeps its reply as a subtree: the
      counterpart of `LowScorePrunesSubtree`. */
  lemma ParentKeepsReply(score: int, replyScore: int)
    requires score >= DefaultMinScore && replyScore >= DefaultMinScore
    ensures ExtractComments(ListingOf(ParentExample(score, replyScore)))
      == Success([Comment("parent", "a", score, [Comment("reply", "b", replyScore, [])])])
  {
    var parent := ParentExample(score, replyScore);
    var cs := [Comment("parent", "a", score, [Comment("reply", "b", replyScore, [])])];
    SizeOfListing(parent);
    var bound := Size(ListingOf(parent)) - 1;
    ParentExtracted(score, replyScore, bound, 0);
    ListingExtractsTo(parent, bound, -1, 0, cs);
  }
}
