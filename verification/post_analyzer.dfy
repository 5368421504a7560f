/** The post and its comments as the XML-like blocks of the analysis
    prompt, and the analysis step around them. */
module PostAnalyzer {
  import opened Wrappers
  import opened Json
  import opened Strings
  import opened Templates
  import opened Data

  // ===========================================================================
  // Templates
  // ===========================================================================

  /** One comment: text, author and score, then the replies' blocks. */
  const CommentTemplate: Template :=
    [Lit("<comment>\n    <text>"),
     Hole("text"),
     Lit("</text>\n    <author>"),
     Hole("author"),
     Lit("</author>\n    <score>"),
     Hole("score"),
     Lit("</score>\n    <replies>"),
     Hole("replies"),
     Lit("</replies>\n</comment>")]

  /** The post's own fields. */
  const PostTemplate: Template :=
    [Lit("<post>\n    <title>"),
     Hole("title"),
     Lit("</title>\n    <text>"),
     Hole("text"),
     Lit("</text>\n    <category>"),
     Hole("category"),
     Lit("</category>\n    <author>"),
     Hole("author"),
     Lit("</author>\n    <n_comments>"),
     Hole("n_comments"),
     Lit("</n_comments>\n    <score>"),
     Hole("score"),
     Lit("</score>\n    <upvote_ratio>"),
     Hole("upvote_ratio"),
     Lit("</upvote_ratio>\n    <url_domain>"),
     Hole("url_domain"),
     Lit("</url_domain>\n    <created_at>"),
     Hole("created_at"),
     Lit("</created_at>\n</post>")]

  /** The comment template filled in, piece by piece. */
  lemma CommentTemplateFormat(args: map<string, string>)
    requires "text" in args && "author" in args && "score" in args && "replies" in args
    ensures Covers(CommentTemplate, args)
    ensures Format(CommentTemplate, args).value
      == CommentTemplate[0].text + args["text"] + CommentTemplate[2].text + args["author"]
         + CommentTemplate[4].text + args["score"] + CommentTemplate[6].text + args["replies"]
         + CommentTemplate[8].text
  {
    var t := CommentTemplate;
    FormatPiece(t[0], args);
    assert t[..1] == [t[0]];
    FormatSnoc(t[..1], t[1], args);
    assert t[..2] == t[..1] + [t[1]];
    FormatSnoc(t[..2], t[2], args);
    assert t[..3] == t[..2] + [t[2]];
    FormatSnoc(t[..3], t[3], args);
    assert t[..4] == t[..3] + [t[3]];
    FormatSnoc(t[..4], t[4], args);
    assert t[..5] == t[..4] + [t[4]];
    FormatSnoc(t[..5], t[5], args);
    assert t[..6] == t[..5] + [t[5]];
    FormatSnoc(t[..6], t[6], args);
    assert t[..7] == t[..6] + [t[6]];
    FormatSnoc(t[..7], t[7], args);
    assert t[..8] == t[..7] + [t[7]];
    FormatSnoc(t[..8], t[8], args);
    assert t[..9] == t[..8] + [t[8]];
    assert t[..9] == t;
  }

  /** Every placeholder of the post template has an argument. */
  lemma PostTemplateCovered(args: map<string, string>)
    requires "title" in args && "text" in args && "category" in args && "author" in args
      && "n_comments" in args && "score" in args && "upvote_ratio" in args
      && "url_domain" in args && "created_at" in args
    ensures Covers(PostTemplate, args)
  {
    var t := PostTemplate;
    forall i | 0 <= i < |t| && t[i].Hole? ensures t[i].name in args {
      assert i in {1, 3, 5, 7, 9, 11, 13, 15, 17};
    }
  }

  // ===========================================================================
  // Comments
  // ===========================================================================

  function CommentArgs(c: Comment): map<string, string>
    decreases c, 1
  {
    map["text" := c.text, "author" := c.author, "score" := IntToString(c.score),
        "replies" := Join("\n", RepliesXml(c.replies))]
  }

  /** `_create_comment_text`: one `<comment>` block per comment. */
  function CommentXml(c: Comment): string
    decreases c, 2
  {
    CommentTemplateFormat(CommentArgs(c));
    Format(CommentTemplate, CommentArgs(c)).value
  }

  /** The blocks of `cs`, in order. */
  function RepliesXml(cs: seq<Comment>): (r: seq<string>)
    ensures |r| == |cs|
    ensures forall i :: 0 <= i < |cs| ==> r[i] == CommentXml(cs[i])
    decreases cs, 0
  {
    if |cs| == 0 then [] else [CommentXml(cs[0])] + RepliesXml(cs[1..])
  }

  /** Text, author and score in this order, then the replies' blocks joined by
      newlines inside `<replies>`. */
  lemma CommentXmlLayout(c: Comment)
    decreases c, 0
    ensures CommentXml(c)
      == "<comment>\n    <text>" + c.text + "</text>\n    <author>" + c.author + "</author>\n    <score>"
         + IntToString(c.score) + "</score>\n    <replies>" + Join("\n", RepliesXml(c.replies))
         + "</replies>\n</comment>"
  {
    var args := CommentArgs(c);
    assert args["text"] == c.text && args["author"] == c.author && args["score"] == IntToString(c.score);
    assert args["replies"] == Join("\n", RepliesXml(c.replies));
    CommentTemplateFormat(args);
  }

  /** A comment without replies has an empty replies element. */
  lemma LeafHasEmptyReplies(c: Comment)
    requires c.replies == []
    ensures Contains(CommentXml(c), "<replies></replies>")
  {
    CommentXmlLayout(c);
    var a := "<comment>\n    <text>" + c.text + "</text>\n    <author>" + c.author + "</author>\n    <score>"
             + IntToString(c.score);
    var f, r1, r2, e := "</score>\n    ", "<replies>", "</replies>", "\n</comment>";
    assert Join("\n", RepliesXml(c.replies)) == "";
    assert CommentXml(c) == a + (f + r1) + (r2 + e) by {
      assert "</score>\n    <replies>" == f + r1 && "</replies>\n</comment>" == r2 + e;
    }
    ConcatAssoc(a, f, r1);
    ConcatAssoc(a + f + r1, r2, e);
    ConcatAssoc(a + f, r1, r2);
    assert r1 + r2 == "<replies></replies>";
    ContainsMiddle(a + f, "<replies></replies>", e);
  }

  /** No text or author anywhere in the tree contains '<'. */
  predicate NoAngle(c: Comment)
    decreases c
  {
    && CountChar('<', c.text) == 0 && CountChar('<', c.author) == 0
    && forall i :: 0 <= i < |c.replies| ==> NoAngle(c.replies[i])
  }

  /** A literal with two tags, each starting with '<'. */
  lemma TwoTags(lit: string, a: string, b: string)
    requires lit == "<" + a + "<" + b
    requires '<' !in a && '<' !in b
    ensures CountChar('<', lit) == 2
  {
    assert CountChar('<', "<") == CountTo('<', "<", 1) == 1;
    CountCharAbsent('<', a);
    CountCharAbsent('<', b);
    CountCharConcat('<', "<", a);
    CountCharConcat('<', "<" + a, "<");
    CountCharConcat('<', "<" + a + "<", b);
  }

  /** Each literal part of the comment template holds two tags. */
  lemma CommentTags0()
    ensures CountChar('<', CommentTemplate[0].text) == 2
  {
    TwoTags(CommentTemplate[0].text, "comment>\n    ", "text>");
  }

  lemma CommentTags2()
    ensures CountChar('<', CommentTemplate[2].text) == 2
  {
    TwoTags(CommentTemplate[2].text, "/text>\n    ", "author>");
  }

  lemma CommentTags4()
    ensures CountChar('<', CommentTemplate[4].text) == 2
  {
    TwoTags(CommentTemplate[4].text, "/author>\n    ", "score>");
  }

  lemma CommentTags6()
    ensures CountChar('<', CommentTemplate[6].text) == 2
  {
    TwoTags(CommentTemplate[6].text, "/score>\n    ", "replies>");
  }

  lemma CommentTags8()
    ensures CountChar('<', CommentTemplate[8].text) == 2
  {
    TwoTags(CommentTemplate[8].text, "/replies>\n", "/comment>");
  }

  /** Rendering is a fold with one block per comment: each block brings its
      own ten tags, so the tags in a tree's rendering count its comments. */
  lemma {:induction false} TagCount(c: Comment)
    requires NoAngle(c)
    ensures CountChar('<', CommentXml(c)) == 10 * CommentCount(c)
    decreases c, 4
  {
    OwnTags(c);
    ForestTagCount(c.replies);
  }

  /** One block adds ten tags to those of its replies. */
  lemma OwnTags(c: Comment)
    requires CountChar('<', c.text) == 0 && CountChar('<', c.author) == 0
    ensures CountChar('<', CommentXml(c)) == 10 + CountChar('<', Join("\n", RepliesXml(c.replies)))
  {
    var t := CommentTemplate;
    var score := IntToString(c.score);
    CommentTemplateFormat(CommentArgs(c));
    CommentTags0(); CommentTags2(); CommentTags4(); CommentTags6(); CommentTags8();
    CountCharOfNumber('<', score);
    BlockCount(t[0].text, c.text, t[2].text, c.author, t[4].text, score, t[6].text,
               Join("\n", RepliesXml(c.replies)), t[8].text);
  }

  /** The '<' count of one filled-in block. */
  lemma BlockCount(l0: string, text: string, l2: string, author: string, l4: string, score: string,
                   l6: string, replies: string, l8: string)
    requires CountChar('<', l0) == 2 && CountChar('<', l2) == 2 && CountChar('<', l4) == 2
    requires CountChar('<', l6) == 2 && CountChar('<', l8) == 2
    requires CountChar('<', text) == 0 && CountChar('<', author) == 0 && CountChar('<', score) == 0
    ensures CountChar('<', l0 + text + l2 + author + l4 + score + l6 + replies + l8)
      == 10 + CountChar('<', replies)
  {
    var x1 := l0 + text;
    var x2 := x1 + l2;
    var x3 := x2 + author;
    var x4 := x3 + l4;
    var x5 := x4 + score;
    var x6 := x5 + l6;
    var x7 := x6 + replies;
    CountCharConcat('<', l0, text);
    CountCharConcat('<', x1, l2);
    CountCharConcat('<', x2, author);
    CountCharConcat('<', x3, l4);
    CountCharConcat('<', x4, score);
    CountCharConcat('<', x5, l6);
    CountCharConcat('<', x6, replies);
    CountCharConcat('<', x7, l8);
  }

  /** The same count for the newline-joined blocks of a list of comments. */
  lemma {:induction false} ForestTagCount(cs: seq<Comment>)
    requires forall i :: 0 <= i < |cs| ==> NoAngle(cs[i])
    ensures CountChar('<', Join("\n", RepliesXml(cs))) == 10 * ForestCount(cs)
    decreases cs, 3
  {
    if |cs| > 0 {
      SumTagCount(cs);
      JoinCountChar('<', "\n", RepliesXml(cs));
      CountCharAbsent('<', "\n");
    }
  }

  lemma {:induction false} SumTagCount(cs: seq<Comment>)
    requires forall i :: 0 <= i < |cs| ==> NoAngle(cs[i])
    ensures SumCountChar('<', RepliesXml(cs)) == 10 * ForestCount(cs)
    decreases cs, 2
  {
    if |cs| > 0 {
      TagCount(cs[0]);
      SumTagCount(cs[1..]);
      assert RepliesXml(cs)[1..] == RepliesXml(cs[1..]);
    }
  }

  // ===========================================================================
  // The post and the analysis step
  // ===========================================================================

  /** The comments section of the prompt: the top-level blocks joined by newlines. */
  function CommentsSection(p: Post): (r: string)
    ensures p.comments == [] ==> r == ""
  {
    Join("\n", RepliesXml(p.comments))
  }

  /** A post without '<' in its comments' texts and authors gets ten tags per comment. */
  lemma SectionTagCount(p: Post)
    requires forall i :: 0 <= i < |p.comments| ==> NoAngle(p.comments[i])
    ensures CountChar('<', CommentsSection(p)) == 10 * ForestCount(p.comments)
  {
    ForestTagCount(p.comments);
  }

  /** How a float and a timestamp are printed (`str(float)`, `isoformat()`). */
  datatype Printers = Printers(showReal: real -> string, isoformat: real -> string)

  function PostArgs(p: Post, pr: Printers): map<string, string> {
    map["title" := p.title, "text" := p.text, "category" := CategoryText(p.category),
        "author" := p.author, "n_comments" := IntToString(p.nComments), "score" := IntToString(p.score),
        "upvote_ratio" := pr.showReal(p.upvoteRatio), "url_domain" := p.urlDomain,
        "created_at" := pr.isoformat(p.createdAt)]
  }

  /** `_create_post_text` of the analysis step. */
  function PostXml(p: Post, pr: Printers): string {
    PostTemplateCovered(PostArgs(p, pr));
    Format(PostTemplate, PostArgs(p, pr)).value
  }

  /** What the analysis prompt is filled with. */
  datatype AnalysisRequest = AnalysisRequest(post: string, comments: string, userQuery: string)

  /** `analyze_post`: the model answers the filled-in prompt with JSON, which
      is validated as a `PostAnalysis`. */
  function AnalyzePost(model: AnalysisRequest -> Json, pr: Printers, userQuery: string, p: Post)
    : (r: PyResult<PostAnalysis>)
    ensures var j := model(AnalysisRequest(PostXml(p, pr), CommentsSection(p), userQuery));
      r.Success? ==> j.JObj? && HasKey(j, "summary") && Lookup(j, "summary") == JStr(r.value.summary)
                     && HasKey(j, "sentiment") && Lookup(j, "sentiment") == JStr(SentimentName(r.value.sentiment))
    ensures var j := model(AnalysisRequest(PostXml(p, pr), CommentsSection(p), userQuery));
      j.JObj? && (!HasKey(j, "summary") || !HasKey(j, "sentiment")) ==> r.Failure?
  {
    ParsePostAnalysis(model(AnalysisRequest(PostXml(p, pr), CommentsSection(p), userQuery)))
  }

  /** The prompt depends on the post's comments only through their blocks:
      two posts with the same fields and the same rendered comments get the
      same analysis. */
  lemma AnalysisSeesRenderedComments(model: AnalysisRequest -> Json, pr: Printers, q: string, p: Post, p2: Post)
    requires p2 == p.(comments := p2.comments, analysis := p2.analysis)
    requires RepliesXml(p2.comments) == RepliesXml(p.comments)
    ensures AnalyzePost(model, pr, q, p2) == AnalyzePost(model, pr, q, p)
  {
  }
}
