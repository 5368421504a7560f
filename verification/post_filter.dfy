/** Post selection: every post becomes a search document carrying its
    permalink, the search tool the model asked for runs over exactly those
    documents, and the posts whose permalink comes back are kept in order. */
module PostFilter {
  import opened Wrappers
  import opened Json
  import opened Strings
  import opened Templates
  import opened Data

  // ===========================================================================
  // Rendering a post as plain text
  // ===========================================================================

  /** A comment: its text, a newline and four spaces, then its replies. */
  const CommentTemplate: Template := [Hole("text"), Lit("\n    "), Hole("replies")]

  /** A post: title and category, then the text, then the comments. */
  const PostTemplate: Template :=
    [Hole("title"), Lit(" "), Hole("category"), Lit("\n\n"), Hole("text"), Lit("\n\n"), Hole("comments")]

  /** `_create_comment_text`. */
  function CommentText(c: Comment): string
    decreases c
  {
    var args := map["text" := c.text, "replies" := Join("\n", RepliesText(c.replies))];
    assert Covers(CommentTemplate, args);
    Format(CommentTemplate, args).value
  }

  /** The renderings of `cs`, in order. */
  function RepliesText(cs: seq<Comment>): (r: seq<string>)
    ensures |r| == |cs|
    ensures forall i :: 0 <= i < |cs| ==> r[i] == CommentText(cs[i])
    decreases cs
  {
    if |cs| == 0 then [] else [CommentText(cs[0])] + RepliesText(cs[1..])
  }

  /** The comment template filled in, piece by piece. */
  lemma CommentTemplateFormat(args: map<string, string>)
    requires "text" in args && "replies" in args
    ensures Covers(CommentTemplate, args)
    ensures Format(CommentTemplate, args).value == args["text"] + CommentTemplate[1].text + args["replies"]
  {
    var t := CommentTemplate;
    var s1 := [t[0]];
    FormatPiece(t[0], args);
    var s2 := s1 + [t[1]];
    FormatSnoc(s1, t[1], args);
    var s3 := s2 + [t[2]];
    FormatSnoc(s2, t[2], args);
    assert s3 == t;
  }

  /** The comment template written out. */
  lemma CommentTextLayout(c: Comment)
    ensures CommentText(c) == c.text + "\n    " + Join("\n", RepliesText(c.replies))
  {
    CommentTemplateFormat(map["text" := c.text, "replies" := Join("\n", RepliesText(c.replies))]);
  }

  /** A comment without replies renders as its text followed by a newline and
      four spaces, so it ends in that indentation. */
  lemma LeafRendering(c: Comment)
    requires c.replies == []
    ensures CommentText(c) == c.text + "\n    "
    ensures EndsWith(CommentText(c), "\n    ")
  {
    CommentTextLayout(c);
    assert Join("\n", RepliesText(c.replies)) == "";
  }

  /** The comment reached from `c` by following reply indices along `path`. */
  function At(c: Comment, path: seq<nat>): Option<Comment>
    decreases |path|
  {
    if |path| == 0 then Some(c)
    else if path[0] < |c.replies| then At(c.replies[path[0]], path[1..])
    else None
  }

  /** A comment's own text occurs in its rendering. */
  lemma OwnTextRendered(c: Comment)
    ensures Contains(CommentText(c), c.text)
  {
    CommentTextLayout(c);
    assert CommentText(c)[..|c.text|] == c.text;
  }

  /** The rendering of each reply occurs in the rendering of its parent. */
  lemma ReplyRendered(c: Comment, k: nat)
    requires k < |c.replies|
    ensures Contains(CommentText(c), CommentText(c.replies[k]))
  {
    CommentTextLayout(c);
    var replies := Join("\n", RepliesText(c.replies));
    JoinContains("\n", RepliesText(c.replies), k);
    ContainsMiddle(c.text + "\n    ", replies, "");
    assert c.text + "\n    " + replies + "" == CommentText(c);
    ContainsTrans(CommentText(c.replies[k]), replies, CommentText(c));
  }

  /** Rendering drops nothing: the text of every comment in the tree occurs
      in the rendering of its root. */
  lemma {:induction false} EveryTextRendered(c: Comment, path: seq<nat>)
    requires At(c, path).Some?
    ensures Contains(CommentText(c), At(c, path).value.text)
    decreases |path|
  {
    if |path| == 0 {
      OwnTextRendered(c);
    } else {
      var child := c.replies[path[0]];
      EveryTextRendered(child, path[1..]);
      ReplyRendered(c, path[0]);
      ContainsTrans(At(c, path).value.text, CommentText(child), CommentText(c));
    }
  }

  /** The post template filled in, written out. */
  lemma PostTemplateFormat(args: map<string, string>)
    requires "title" in args && "category" in args && "text" in args && "comments" in args
    ensures Covers(PostTemplate, args)
    ensures Format(PostTemplate, args).value
      == args["title"] + " " + args["category"] + "\n\n" + args["text"] + "\n\n" + args["comments"]
  {
    var t := PostTemplate;
    var s1 := [t[0]];
    FormatPiece(t[0], args);
    var s2 := s1 + [t[1]];
    FormatSnoc(s1, t[1], args);
    var s3 := s2 + [t[2]];
    FormatSnoc(s2, t[2], args);
    var s4 := s3 + [t[3]];
    FormatSnoc(s3, t[3], args);
    var s5 := s4 + [t[4]];
    FormatSnoc(s4, t[4], args);
    var s6 := s5 + [t[5]];
    FormatSnoc(s5, t[5], args);
    var s7 := s6 + [t[6]];
    FormatSnoc(s6, t[6], args);
    assert s7 == t;
  }

  function PostArgs(p: Post): map<string, string> {
    map["title" := p.title, "category" := CategoryText(p.category), "text" := p.text,
        "comments" := Join("\n", RepliesText(p.comments))]
  }

  /** `_create_post_text`. */
  function PostText(p: Post): string {
    PostTemplateFormat(PostArgs(p));
    Format(PostTemplate, PostArgs(p)).value
  }

  /** The post template written out. */
  lemma PostTextLayout(p: Post)
    ensures PostText(p) == p.title + " " + CategoryText(p.category) + "\n\n" + p.text + "\n\n"
                           + Join("\n", RepliesText(p.comments))
  {
    PostTemplateFormat(PostArgs(p));
  }

  /** A post's document shows the rendering of each of its top-level comments. */
  lemma PostTextShowsComments(p: Post, i: nat)
    requires i < |p.comments|
    ensures Contains(PostText(p), CommentText(p.comments[i]))
  {
    PostTextLayout(p);
    var comments := Join("\n", RepliesText(p.comments));
    JoinContains("\n", RepliesText(p.comments), i);
    var front := p.title + " " + CategoryText(p.category) + "\n\n" + p.text + "\n\n";
    ContainsMiddle(front, comments, "");
    assert front + comments + "" == PostText(p);
    ContainsTrans(CommentText(p.comments[i]), comments, PostText(p));
  }

  // ===========================================================================
  // Documents and the tool call
  // ===========================================================================

  /** A search document: the rendered post and its `permalink` metadata. */
  datatype Document = Document(pageContent: string, permalink: string)

  /** `_create_documents_from_posts`. */
  function CreateDocuments(posts: seq<Post>): (docs: seq<Document>)
    ensures |docs| == |posts|
    ensures forall i :: 0 <= i < |posts| ==> docs[i].permalink == posts[i].permalink
    ensures forall i :: 0 <= i < |posts| ==> docs[i].pageContent == PostText(posts[i])
  {
    seq(|posts|, i requires 0 <= i < |posts| => Document(PostText(posts[i]), posts[i].permalink))
  }

  /** The arguments of a search call. */
  datatype ToolArgs = ToolArgs(query: string, documents: seq<Document>)

  /** A tool call the model produced: the tool's name and its arguments. */
  datatype ToolCall = ToolCall(name: string, args: ToolArgs)

  /** A tool: its name and what invoking it returns. */
  datatype Tool = Tool(name: string, invoke: ToolArgs -> seq<Document>)

  const SearchToolName: string := "search_documents"

  /** The position `{t.name: t for t in tools}` keeps for `name`: the last one. */
  function LastNamed(tools: seq<Tool>, name: string): (r: Option<nat>)
    ensures r.Some? ==> r.value < |tools| && tools[r.value].name == name
    ensures r.Some? ==> forall i :: r.value < i < |tools| ==> tools[i].name != name
    ensures r.None? <==> forall i :: 0 <= i < |tools| ==> tools[i].name != name
  {
    if |tools| == 0 then None
    else if tools[|tools| - 1].name == name then Some(|tools| - 1)
    else LastNamed(tools[..|tools| - 1], name)
  }

  /** `_execute_tool`: the tool named by the call, invoked on the call's
      arguments; an unknown name is a KeyError. */
  function ExecuteTool(call: ToolCall, tools: seq<Tool>): (r: PyResult<seq<Document>>)
    ensures r.Success? <==> exists i :: 0 <= i < |tools| && tools[i].name == call.name
    ensures r.Failure? ==> r.error == KeyError(call.name)
    ensures r.Success? ==> exists i :: 0 <= i < |tools| && tools[i].name == call.name
                                       && r.value == tools[i].invoke(call.args)
  {
    match LastNamed(tools, call.name)
    case None => Failure(KeyError(call.name))
    case Some(i) => Success(tools[i].invoke(call.args))
  }

  /** With one tool per name, the call reaches exactly that tool. */
  lemma ExecuteNamedTool(call: ToolCall, tools: seq<Tool>, i: nat)
    requires i < |tools| && tools[i].name == call.name
    requires forall j :: 0 <= j < |tools| && j != i ==> tools[j].name != call.name
    ensures ExecuteTool(call, tools) == Success(tools[i].invoke(call.args))
  {
  }

  // ===========================================================================
  // Selection
  // ===========================================================================

  /** `a` is `b` with some elements left out, order kept. */
  predicate IsSubsequence<T(==)>(a: seq<T>, b: seq<T>)
    decreases |b|
  {
    if |a| == 0 then true
    else if |b| == 0 then false
    else if a[0] == b[0] then IsSubsequence(a[1..], b[1..])
    else IsSubsequence(a, b[1..])
  }

  lemma {:induction false} SubsequenceLength<T>(a: seq<T>, b: seq<T>)
    requires IsSubsequence(a, b)
    ensures |a| <= |b|
    decreases |b|
  {
    if |a| > 0 {
      if a[0] == b[0] {
        SubsequenceLength(a[1..], b[1..]);
      } else {
        SubsequenceLength(a, b[1..]);
      }
    }
  }

  /** Every element of a subsequence is an element of the whole. */
  lemma {:induction false} SubsequenceElements<T>(a: seq<T>, b: seq<T>, x: T)
    requires IsSubsequence(a, b) && x in a
    ensures x in b
    decreases |b|
  {
    if a[0] == b[0] {
      if x != a[0] {
        assert x in a[1..];
        SubsequenceElements(a[1..], b[1..], x);
      }
    } else {
      SubsequenceElements(a, b[1..], x);
    }
  }

  /** The permalinks found by the search. */
  function Permalinks(docs: seq<Document>): set<string> {
    set d | d in docs :: d.permalink
  }

  /** The posts whose permalink is among the found ones, in input order. */
  function SelectPosts(posts: seq<Post>, found: seq<Document>): (r: seq<Post>)
    ensures IsSubsequence(r, posts)
    ensures forall p :: p in r <==> p in posts && p.permalink in Permalinks(found)
    ensures |found| == 0 ==> r == []
  {
    if |posts| == 0 then []
    else if posts[0].permalink in Permalinks(found) then [posts[0]] + SelectPosts(posts[1..], found)
    else SelectPosts(posts[1..], found)
  }

  /** Selection works post by post: it distributes over concatenation. */
  lemma {:induction false} SelectAppend(a: seq<Post>, b: seq<Post>, found: seq<Document>)
    ensures SelectPosts(a + b, found) == SelectPosts(a, found) + SelectPosts(b, found)
  {
    if |a| == 0 {
      assert a + b == b;
    } else {
      assert (a + b)[0] == a[0];
      assert (a + b)[1..] == a[1..] + b;
      SelectAppend(a[1..], b, found);
    }
  }

  /** Never more posts out than in, and posts sharing a permalink are kept or
      dropped together. */
  lemma SelectionBounds(posts: seq<Post>, found: seq<Document>, i: nat, j: nat)
    requires i < |posts| && j < |posts| && posts[i].permalink == posts[j].permalink
    ensures |SelectPosts(posts, found)| <= |posts|
    ensures posts[i] in SelectPosts(posts, found) <==> posts[j] in SelectPosts(posts, found)
  {
    SubsequenceLength(SelectPosts(posts, found), posts);
  }

  /** `filter_posts`. `toolCallFor` is the model's answer to the search
      prompt for the query (its list of tool calls); `search` is the vector
      search the tool runs. */
  function FilterPosts(toolCallFor: string -> seq<ToolCall>, search: ToolArgs -> seq<Document>,
                       query: string, posts: seq<Post>): (r: PyResult<seq<Post>>)
    ensures r.Success? <==> |toolCallFor(query)| > 0 && toolCallFor(query)[0].name == SearchToolName
    ensures r.Failure? && |toolCallFor(query)| == 0 ==> r.error == IndexError
    ensures r.Success? ==> IsSubsequence(r.value, posts)
    ensures r.Success? ==>
      r.value == SelectPosts(posts, search(ToolArgs(toolCallFor(query)[0].args.query, CreateDocuments(posts))))
  {
    var calls := toolCallFor(query);
    if |calls| == 0 then Failure(IndexError)
    else
      var call := calls[0].(args := calls[0].args.(documents := CreateDocuments(posts)));
      var found :- ExecuteTool(call, [Tool(SearchToolName, search)]);
      Success(SelectPosts(posts, found))
  }

  /** Whatever documents the model put into its call, the search runs over
      the given posts: the outcome does not depend on them. */
  lemma DocumentsInjected(callsA: string -> seq<ToolCall>, callsB: string -> seq<ToolCall>,
                          search: ToolArgs -> seq<Document>, query: string, posts: seq<Post>)
    requires |callsA(query)| > 0 && |callsB(query)| > 0
    requires callsA(query)[0].name == callsB(query)[0].name
    requires callsA(query)[0].args.query == callsB(query)[0].args.query
    ensures FilterPosts(callsA, search, query, posts) == FilterPosts(callsB, search, query, posts)
  {
  }
}
