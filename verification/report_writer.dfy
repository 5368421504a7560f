/** The report step: every analysed post as a summary block, the blocks
    joined into the posts section of the report prompt, and the model's JSON
    answer validated as a `Report`. */
module ReportWriter {
  import opened Wrappers
  import opened Json
  import opened Strings
  import opened Templates
  import opened Data

  /** One analysed post. The analysis' sentiment is handed to `format` as
      well, but no placeholder asks for it. */
  const SummarizedPostTemplate: Template := BlockHead + BlockTail

  /** The block up to the summary, and the rest. */
  const BlockHead: Template :=
    [Lit("<post>\n    <title>"),
     Hole("title"),
     Lit("</title>\n    <text>"),
     Hole("text"),
     Lit("</text>\n    <score>"),
     Hole("score"),
     Lit("</score>\n    <summary>"),
     Hole("summary")]

  const BlockTail: Template :=
    [Lit("</summary>\n    <topics>"),
     Hole("topics"),
     Lit("</topics>\n    <key_points>"),
     Hole("key_points"),
     Lit("</key_points>\n    <controversies>"),
     Hole("controversies"),
     Lit("</controversies>\n</post>")]

  /** The head of the block filled in. */
  lemma BlockHeadFormat(args: map<string, string>)
    requires "title" in args && "text" in args && "score" in args && "summary" in args
    ensures Covers(BlockHead, args)
    ensures Format(BlockHead, args).value
      == BlockHead[0].text + args["title"] + BlockHead[2].text + args["text"] + BlockHead[4].text
         + args["score"] + BlockHead[6].text + args["summary"]
  {
    var t := BlockHead;
    var s1 := [t[0]];
    FormatPiece(t[0], args);
    var s2 := s1 + [t[1]];
    FormatSnoc(s1, t[1], args);
    var s3 := s2 + [t[2]];
    FormatSnoc(s2, t[2], args);
    var s4 := s3 + [t[3]];
    FormatSnoc(s3, t[3], args);
    var s5 := s4 + [t[4]];
    FormatSnoc(s4, t[4], args);
    var s6 := s5 + [t[5]];
    FormatSnoc(s5, t[5], args);
    var s7 := s6 + [t[6]];
    FormatSnoc(s6, t[6], args);
    var s8 := s7 + [t[7]];
    FormatSnoc(s7, t[7], args);
    assert s8 == t;
  }

  /** The tail of the block filled in. */
  lemma BlockTailFormat(args: map<string, string>)
    requires "topics" in args && "key_points" in args && "controversies" in args
    ensures Covers(BlockTail, args)
    ensures Format(BlockTail, args).value
      == BlockTail[0].text + args["topics"] + BlockTail[2].text + args["key_points"]
         + BlockTail[4].text + args["controversies"] + BlockTail[6].text
  {
    var t := BlockTail;
    var s1 := [t[0]];
    FormatPiece(t[0], args);
    var s2 := s1 + [t[1]];
    FormatSnoc(s1, t[1], args);
    var s3 := s2 + [t[2]];
    FormatSnoc(s2, t[2], args);
    var s4 := s3 + [t[3]];
    FormatSnoc(s3, t[3], args);
    var s5 := s4 + [t[4]];
    FormatSnoc(s4, t[4], args);
    var s6 := s5 + [t[5]];
    FormatSnoc(s5, t[5], args);
    var s7 := s6 + [t[6]];
    FormatSnoc(s6, t[6], args);
    assert s7 == t;
  }

  /** The whole block is its head followed by its tail. */
  lemma SummarizedPostFormat(args: map<string, string>)
    requires "title" in args && "text" in args && "score" in args && "summary" in args
    requires "topics" in args && "key_points" in args && "controversies" in args
    ensures Covers(SummarizedPostTemplate, args)
    ensures Format(SummarizedPostTemplate, args).value
      == Format(BlockHead, args).value + Format(BlockTail, args).value
  {
    BlockHeadFormat(args);
    BlockTailFormat(args);
    FormatAppend(BlockHead, BlockTail, args);
  }

  /** The arguments `_create_post_text` passes; `showList` is Python's list
      `repr`. */
  function BlockArgs(showList: seq<string> -> string, p: Post, a: PostAnalysis): map<string, string> {
    map["title" := p.title, "text" := p.text, "score" := IntToString(p.score),
        "summary" := a.summary, "topics" := showList(a.topics), "sentiment" := SentimentName(a.sentiment),
        "key_points" := showList(a.keyPoints), "controversies" := showList(a.controversies)]
  }

  /** `_create_post_text`: reading a field of a missing analysis raises
      AttributeError. */
  function SummarizedPostText(showList: seq<string> -> string, p: Post): (r: PyResult<string>)
    ensures r.Success? <==> p.analysis.Some?
    ensures r.Failure? ==> r.error.AttributeError?
  {
    match p.analysis
    case None => Failure(AttributeError("'NoneType' object has no attribute 'summary'"))
    case Some(a) =>
      SummarizedPostFormat(BlockArgs(showList, p, a));
      Success(Format(SummarizedPostTemplate, BlockArgs(showList, p, a)).value)
  }

  /** What each placeholder of the block is filled with. */
  lemma BlockArgsLookup(showList: seq<string> -> string, p: Post, a: PostAnalysis)
    ensures var args := BlockArgs(showList, p, a);
      && "title" in args && args["title"] == p.title
      && "text" in args && args["text"] == p.text
      && "score" in args && args["score"] == IntToString(p.score)
      && "summary" in args && args["summary"] == a.summary
      && "topics" in args && args["topics"] == showList(a.topics)
      && "key_points" in args && args["key_points"] == showList(a.keyPoints)
      && "controversies" in args && args["controversies"] == showList(a.controversies)
  {
  }

  /** The block in terms of the template's literal pieces. */
  lemma BlockPieces(showList: seq<string> -> string, p: Post)
    requires p.analysis.Some?
    ensures var a := p.analysis.value;
      var h := BlockHead;
      var t := BlockTail;
      SummarizedPostText(showList, p).value
      == h[0].text + p.title + h[2].text + p.text + h[4].text + IntToString(p.score) + h[6].text
         + a.summary + t[0].text + showList(a.topics) + t[2].text + showList(a.keyPoints)
         + t[4].text + showList(a.controversies) + t[6].text
  {
    var a := p.analysis.value;
    var args := BlockArgs(showList, p, a);
    BlockArgsLookup(showList, p, a);
    SummarizedPostFormat(args);
    BlockHeadFormat(args);
    BlockTailFormat(args);
    var h, t := BlockHead, BlockTail;
    var x := h[0].text + p.title + h[2].text + p.text + h[4].text + IntToString(p.score) + h[6].text + a.summary;
    var tp, kp, cv := showList(a.topics), showList(a.keyPoints), showList(a.controversies);
    assert SummarizedPostText(showList, p).value == x + (t[0].text + tp + t[2].text + kp + t[4].text + cv + t[6].text);
    ConcatAssoc(x, t[0].text + tp + t[2].text + kp + t[4].text + cv, t[6].text);
    ConcatAssoc(x, t[0].text + tp + t[2].text + kp + t[4].text, cv);
    ConcatAssoc(x, t[0].text + tp + t[2].text + kp, t[4].text);
    ConcatAssoc(x, t[0].text + tp + t[2].text, kp);
    ConcatAssoc(x, t[0].text + tp, t[2].text);
    ConcatAssoc(x, t[0].text, tp);
  }

  /** The block shows title, text, score, summary, topics, key points and
      controversies, in that order, each inside its own element. */
  lemma SummarizedPostLayout(showList: seq<string> -> string, p: Post)
    requires p.analysis.Some?
    ensures var a := p.analysis.value;
      SummarizedPostText(showList, p).value
      == "<post>\n    <title>" + p.title + "</title>\n    <text>" + p.text
         + "</text>\n    <score>" + IntToString(p.score) + "</score>\n    <summary>" + a.summary
         + "</summary>\n    <topics>" + showList(a.topics)
         + "</topics>\n    <key_points>" + showList(a.keyPoints)
         + "</key_points>\n    <controversies>" + showList(a.controversies)
         + "</controversies>\n</post>"
  {
    BlockPieces(showList, p);
  }

  /** The sentiment never reaches the prompt: posts that differ only in the
      sentiment of their analysis give the same block. */
  lemma SentimentNotShown(showList: seq<string> -> string, p: Post, s: Sentiment)
    requires p.analysis.Some?
    ensures !Mentions(SummarizedPostTemplate, "sentiment")
    ensures SummarizedPostText(showList, p.(analysis := Some(p.analysis.value.(sentiment := s))))
      == SummarizedPostText(showList, p)
  {
    var a := p.analysis.value;
    var args := BlockArgs(showList, p, a);
    assert !Mentions(SummarizedPostTemplate, "sentiment") by {
      forall i | 0 <= i < |SummarizedPostTemplate|
        ensures SummarizedPostTemplate[i] != Hole("sentiment")
      {
      }
    }
    assert BlockArgs(showList, p, a.(sentiment := s)) == args["sentiment" := SentimentName(s)];
    FormatIgnoresUnmentioned(SummarizedPostTemplate, args, "sentiment", SentimentName(s));
  }

  /** The posts section: one block per post, in order, joined by newlines. */
  function PostsSection(showList: seq<string> -> string, posts: seq<Post>): (r: PyResult<string>)
    ensures r.Success? <==> forall i :: 0 <= i < |posts| ==> posts[i].analysis.Some?
    ensures r.Failure? ==> r.error.AttributeError?
    ensures posts == [] ==> r == Success("")
  {
    var blocks :- MapAll((p: Post) => SummarizedPostText(showList, p), posts);
    Success(Join("\n", blocks))
  }

  /** Every part of a concatenation of fifteen strings occurs in it; the
      block is such a concatenation. */
  lemma PartsOccur(x0: string, x1: string, x2: string, x3: string, x4: string, x5: string,
                   x6: string, x7: string, x8: string, x9: string, x10: string, x11: string,
                   x12: string, x13: string, x14: string)
    ensures var s := x0 + x1 + x2 + x3 + x4 + x5 + x6 + x7 + x8 + x9 + x10 + x11 + x12 + x13 + x14;
      Contains(s, x1) && Contains(s, x7)
  {
    var s := x0 + x1 + x2 + x3 + x4 + x5 + x6 + x7 + x8 + x9 + x10 + x11 + x12 + x13 + x14;
    var tail := x8 + x9 + x10 + x11 + x12 + x13 + x14;
    var before := x0 + x1 + x2 + x3 + x4 + x5 + x6;
    assert s == before + x7 + tail;
    ContainsMiddle(before, x7, tail);
    var after := x2 + x3 + x4 + x5 + x6 + x7 + tail;
    assert s == x0 + x1 + after;
    ContainsMiddle(x0, x1, after);
  }

  /** A block shows its post's title and its analysis' summary. */
  lemma BlockShowsPost(showList: seq<string> -> string, p: Post)
    requires p.analysis.Some?
    ensures Contains(SummarizedPostText(showList, p).value, p.title)
    ensures Contains(SummarizedPostText(showList, p).value, p.analysis.value.summary)
  {
    var a := p.analysis.value;
    var h := BlockHead;
    var t := BlockTail;
    BlockPieces(showList, p);
    PartsOccur(h[0].text, p.title, h[2].text, p.text, h[4].text, IntToString(p.score), h[6].text,
               a.summary, t[0].text, showList(a.topics), t[2].text, showList(a.keyPoints),
               t[4].text, showList(a.controversies), t[6].text);
  }

  /** The title and the summary of each post occur in the posts section. */
  lemma SectionShowsEveryPost(showList: seq<string> -> string, posts: seq<Post>, i: nat)
    requires PostsSection(showList, posts).Success? && i < |posts|
    ensures Contains(PostsSection(showList, posts).value, posts[i].title)
    ensures Contains(PostsSection(showList, posts).value, posts[i].analysis.value.summary)
  {
    var blocks := MapAll((p: Post) => SummarizedPostText(showList, p), posts).value;
    var section := PostsSection(showList, posts).value;
    assert section == Join("\n", blocks);
    JoinContains("\n", blocks, i);
    assert blocks[i] == SummarizedPostText(showList, posts[i]).value;
    BlockShowsPost(showList, posts[i]);
    ContainsTrans(posts[i].title, blocks[i], section);
    ContainsTrans(posts[i].analysis.value.summary, blocks[i], section);
  }

  /** What the report prompt is filled with. */
  datatype ReportRequest = ReportRequest(posts: string, userQuery: string)

  /** `write_report`: the blocks are rendered before the model is asked, so a
      post without analysis fails the step; the answer is validated as a
      `Report`, whose nested posts `parsePosts` validates. */
  function WriteReport(model: ReportRequest -> Json, parsePosts: Json -> PyResult<seq<Post>>,
                       showList: seq<string> -> string, userQuery: string, posts: seq<Post>)
    : (r: PyResult<Report>)
    ensures (exists i :: 0 <= i < |posts| && posts[i].analysis.None?) ==> r.Failure? && r.error.AttributeError?
    ensures posts == [] ==> r == ParseReport(model(ReportRequest("", userQuery)), parsePosts)
    ensures r.Success? ==> PostsSection(showList, posts).Success?
    ensures r.Success? ==>
      var j := model(ReportRequest(PostsSection(showList, posts).value, userQuery));
      j.JObj? && HasKey(j, "title") && Lookup(j, "title") == JStr(r.value.title)
      && HasKey(j, "summary") && Lookup(j, "summary") == JStr(r.value.summary)
  {
    var section :- PostsSection(showList, posts);
    ParseReport(model(ReportRequest(section, userQuery)), parsePosts)
  }
}
