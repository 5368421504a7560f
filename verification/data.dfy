/** The domain records: a post's analysis, the recursive comment tree, a post
    and the final report, with their defaults, and the validation that turns a
    model's JSON output into an analysis or a report. */
module Data {
  import opened Wrappers
  import opened Json

  // ---------------------------------------------------------------------------
  // Sentiment: exactly eight admissible values
  // ---------------------------------------------------------------------------

  datatype Sentiment =
    | Happiness | Anger | Sadness | Fear | Surprise | Disgust | Trust | Anticipation

  function SentimentName(s: Sentiment): string {
    match s
    case Happiness => "happiness"
    case Anger => "anger"
    case Sadness => "sadness"
    case Fear => "fear"
    case Surprise => "surprise"
    case Disgust => "disgust"
    case Trust => "trust"
    case Anticipation => "anticipation"
  }

  /** The literal check of the `sentiment` field: case-sensitive, exact match. */
  function ParseSentiment(name: string): Option<Sentiment> {
    if name == "happiness" then Some(Happiness)
    else if name == "anger" then Some(Anger)
    else if name == "sadness" then Some(Sadness)
    else if name == "fear" then Some(Fear)
    else if name == "surprise" then Some(Surprise)
    else if name == "disgust" then Some(Disgust)
    else if name == "trust" then Some(Trust)
    else if name == "anticipation" then Some(Anticipation)
    else None
  }

  /** A name is accepted exactly when it is the name of one of the eight
      sentiments, and then it denotes that sentiment. */
  lemma SentimentNames(name: string, s: Sentiment)
    ensures ParseSentiment(SentimentName(s)) == Some(s)
    ensures ParseSentiment(name) == Some(s) <==> name == SentimentName(s)
    ensures ParseSentiment(name).None? <==> forall t: Sentiment :: name != SentimentName(t)
  {
    match ParseSentiment(name)
    case Some(t) =>
      assert name == SentimentName(t);
    case None =>
      forall t: Sentiment ensures name != SentimentName(t) {
      }
  }

  // ---------------------------------------------------------------------------
  // Records
  // ---------------------------------------------------------------------------

  datatype PostAnalysis = PostAnalysis(
    summary: string,
    keyPoints: seq<string>,
    topics: seq<string>,
    controversies: seq<string>,
    sentiment: Sentiment)

  /** A comment and its replies: an owned, finite tree. */
  datatype Comment = Comment(text: string, author: string, score: int, replies: seq<Comment>)

  /** `upvoteRatio` is the float ratio; `createdAt` the UTC timestamp in seconds
      the post's datetime is built from. */
  datatype Post = Post(
    permalink: string,
    title: string,
    text: string,
    author: string,
    category: Option<string>,
    score: int,
    upvoteRatio: real,
    nComments: int,
    urlDomain: string,
    createdAt: real,
    comments: seq<Comment>,
    analysis: Option<PostAnalysis>)

  datatype Report = Report(
    title: string,
    takeaways: seq<string>,
    summary: string,
    references: Option<seq<Post>>)

  /** `str(post.category)`: a missing category prints as "None". */
  function CategoryText(category: Option<string>): string {
    match category
    case None => "None"
    case Some(s) => s
  }

  /** A comment built without `replies` is a leaf. */
  function NewComment(text: string, author: string, score: int): (c: Comment)
    ensures c.replies == [] && CommentCount(c) == 1
  {
    Comment(text, author, score, [])
  }

  /** A post built without `comments` and `analysis`. */
  function NewPost(
    permalink: string, title: string, text: string, author: string, category: Option<string>,
    score: int, upvoteRatio: real, nComments: int, urlDomain: string, createdAt: real): (p: Post)
    ensures p.comments == [] && p.analysis == None
    ensures p.permalink == permalink && p.category == category
  {
    Post(permalink, title, text, author, category, score, upvoteRatio, nComments, urlDomain,
         createdAt, [], None)
  }

  // ---------------------------------------------------------------------------
  // The comment tree as a finite structure
  // ---------------------------------------------------------------------------

  /** Number of comments in the tree rooted at `c`. */
  function CommentCount(c: Comment): nat
    decreases c
  {
    1 + ForestCount(c.replies)
  }

  function ForestCount(cs: seq<Comment>): nat
    decreases cs
  {
    if |cs| == 0 then 0 else CommentCount(cs[0]) + ForestCount(cs[1..])
  }

  lemma {:induction false} ForestCountAppend(xs: seq<Comment>, ys: seq<Comment>)
    ensures ForestCount(xs + ys) == ForestCount(xs) + ForestCount(ys)
  {
    if |xs| == 0 {
      assert xs + ys == ys;
    } else {
      assert (xs + ys)[1..] == xs[1..] + ys;
      ForestCountAppend(xs[1..], ys);
    }
  }

  // ---------------------------------------------------------------------------
  // Validation of the model's JSON output
  // ---------------------------------------------------------------------------

  /** A required field: missing is a validation error. */
  function Required(j: Json, key: string): (r: PyResult<Json>)
    requires j.JObj?
    ensures r.Success? <==> HasKey(j, key)
    ensures r.Success? ==> r.value == Lookup(j, key)
  {
    if HasKey(j, key) then Success(Lookup(j, key)) else Failure(ValidationError(key))
  }

  /** A `List[str]` field that defaults to the empty list. */
  function StrListOrEmpty(j: Json, key: string): (r: PyResult<seq<string>>)
    requires j.JObj?
    ensures !HasKey(j, key) ==> r == Success([])
    ensures HasKey(j, key) ==> r == AsStrList(Lookup(j, key), key)
  {
    if HasKey(j, key) then AsStrList(Lookup(j, key), key) else Success([])
  }

  /** `PostAnalysis` validated from the model's JSON object. */
  function ParsePostAnalysis(j: Json): (r: PyResult<PostAnalysis>)
    ensures r.Success? ==> j.JObj?
    ensures r.Success? ==> HasKey(j, "summary") && Lookup(j, "summary") == JStr(r.value.summary)
    ensures r.Success? ==>
      HasKey(j, "sentiment") && Lookup(j, "sentiment") == JStr(SentimentName(r.value.sentiment))
    ensures j.JObj? && !HasKey(j, "summary") ==> r.Failure?
    ensures j.JObj? && !HasKey(j, "sentiment") ==> r.Failure?
    ensures (j.JObj? && HasKey(j, "sentiment")
             && forall s: Sentiment :: Lookup(j, "sentiment") != JStr(SentimentName(s)))
            ==> r.Failure?
    ensures r.Success? && !HasKey(j, "key_points") ==> r.value.keyPoints == []
    ensures r.Success? && !HasKey(j, "topics") ==> r.value.topics == []
    ensures r.Success? && !HasKey(j, "controversies") ==> r.value.controversies == []
  {
    if !j.JObj? then Failure(ValidationError("PostAnalysis"))
    else
      var summaryJson :- Required(j, "summary");
      var summary :- AsStr(summaryJson, "summary");
      var keyPoints :- StrListOrEmpty(j, "key_points");
      var topics :- StrListOrEmpty(j, "topics");
      var controversies :- StrListOrEmpty(j, "controversies");
      var sentimentJson :- Required(j, "sentiment");
      var name :- AsStr(sentimentJson, "sentiment");
      match ParseSentiment(name)
      case None => Failure(ValidationError("sentiment"))
      case Some(sentiment) =>
        SentimentNames(name, sentiment);
        Success(PostAnalysis(summary, keyPoints, topics, controversies, sentiment))
  }

  function StrListJson(xs: seq<string>): Json {
    JList(seq(|xs|, i requires 0 <= i < |xs| => JStr(xs[i])))
  }

  /** The analysis dumped as a JSON object. */
  function PostAnalysisJson(a: PostAnalysis): Json {
    JObj([
      ("summary", JStr(a.summary)),
      ("key_points", StrListJson(a.keyPoints)),
      ("topics", StrListJson(a.topics)),
      ("controversies", StrListJson(a.controversies)),
      ("sentiment", JStr(SentimentName(a.sentiment)))])
  }

  lemma StrListRoundTrip(xs: seq<string>, key: string)
    ensures AsStrList(StrListJson(xs), key) == Success(xs)
  {
    var items := StrListJson(xs).items;
    assert seq(|items|, i requires 0 <= i < |items| => items[i].s) == xs;
  }

  /** Dumping an analysis and validating it again gives the same analysis. */
  lemma {:induction false} PostAnalysisRoundTrip(a: PostAnalysis)
    ensures ParsePostAnalysis(PostAnalysisJson(a)) == Success(a)
  {
    var j := PostAnalysisJson(a);
    FindUnique(j.fields, "summary", 0);
    FindUnique(j.fields, "key_points", 1);
    FindUnique(j.fields, "topics", 2);
    FindUnique(j.fields, "controversies", 3);
    FindUnique(j.fields, "sentiment", 4);
    StrListRoundTrip(a.keyPoints, "key_points");
    StrListRoundTrip(a.topics, "topics");
    StrListRoundTrip(a.controversies, "controversies");
    SentimentNames(SentimentName(a.sentiment), a.sentiment);
  }

  /** Only `summary` and `sentiment` are needed: the three lists default to empty. */
  lemma PostAnalysisDefaults(summary: string, s: Sentiment)
    ensures ParsePostAnalysis(JObj([("summary", JStr(summary)), ("sentiment", JStr(SentimentName(s)))]))
      == Success(PostAnalysis(summary, [], [], [], s))
  {
    var j := JObj([("summary", JStr(summary)), ("sentiment", JStr(SentimentName(s)))]);
    FindUnique(j.fields, "summary", 0);
    FindUnique(j.fields, "sentiment", 1);
    SentimentNames(SentimentName(s), s);
  }

  /** `Report` validated from the model's JSON object; validating the nested
      posts of `references` is left to `parsePosts`. */
  function ParseReport(j: Json, parsePosts: Json -> PyResult<seq<Post>>): (r: PyResult<Report>)
    ensures r.Success? ==> j.JObj?
    ensures r.Success? ==> HasKey(j, "title") && Lookup(j, "title") == JStr(r.value.title)
    ensures r.Success? ==> HasKey(j, "summary") && Lookup(j, "summary") == JStr(r.value.summary)
    ensures j.JObj? && (!HasKey(j, "title") || !HasKey(j, "summary")) ==> r.Failure?
    ensures r.Success? && !HasKey(j, "takeaways") ==> r.value.takeaways == []
    ensures r.Success? && !HasKey(j, "references") ==> r.value.references == Some([])
    ensures r.Success? && HasKey(j, "references") && Lookup(j, "references") == JNull
      ==> r.value.references == None
  {
    if !j.JObj? then Failure(ValidationError("Report"))
    else
      var titleJson :- Required(j, "title");
      var title :- AsStr(titleJson, "title");
      var takeaways :- StrListOrEmpty(j, "takeaways");
      var summaryJson :- Required(j, "summary");
      var summary :- AsStr(summaryJson, "summary");
      var references :-
        if !HasKey(j, "references") then Success(Some([]))
        else if Lookup(j, "references") == JNull then Success(None)
        else
          var posts :- parsePosts(Lookup(j, "references"));
          Success(Some(posts));
      Success(Report(title, takeaways, summary, references))
  }
}
