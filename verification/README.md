# agentgist core in Dafny

agentgist reads a subreddit and writes a report about it for a user's question. The pipeline runs in these steps:

1. It fetches the subreddit listing and each post's comment listing, and turns the Reddit JSON into `Post` records with comment trees.
2. It suspends to ask the user for a filter query.
3. It renders every post as a search document. The chat model produces a search tool call, and the posts whose permalink the search returns are kept.
4. It analyses each kept post. The post and its comment tree are rendered as XML-like blocks, and the model's JSON answer is validated as a `PostAnalysis`.
5. It writes a report from the analysed posts, and the report's references are set to those posts.

Around every chat model sits a layer of token-saving heuristics:
- context truncation;
- prompt compaction;
- routing by keyword complexity;
- a rewrite of each message before a model call.

This project models that core as pure functions over immutable datatypes and proves properties about them. The pieces are:

- `Json`: JSON values as `json.loads` returns them, with the Python operations the code applies to them (`d[k]`, `.get`, `in`, iteration, `<`) and the exceptions these raise.
- `Strings`: `join`, `split()`, `replace`, `lower()`, slicing and `str(int)`.
- `Templates`: `str.format` over named placeholders.
- `Data`: the records and their validation.
- `PostFetcher`, `PostFilter`, `PostAnalyzer`, `ReportWriter` and `FilterQuery`: the agents.
- `Workflow`: the workflow as a state machine `Start → Suspended → Completed/Failed` that records every step call.
- `GroqStrategies`: the token and routing heuristics.

Some things are parameters of the model rather than part of it:
- HTTP responses;
- the chat models' answers;
- the vector search;
- the printing of floats, datetimes and lists.

Python exceptions are modelled as `Failure` values of a `Result`.

## Model

| member | source | states |
|---|---|---|
| Data.SentimentNames | agentgist/data.py:12-14 | Exactly the eight sentiment names are accepted, each denoting its own sentiment; any other string is rejected |
| Data.NewComment | agentgist/data.py:20-24 | A comment built without replies is a leaf, a tree of one comment |
| Data.NewPost | agentgist/data.py:30-42 | A new post has no comments and no analysis, and keeps its permalink and optional category |
| Data.Required | agentgist/data.py:8-14 | A required field succeeds exactly when the key is present, with its value |
| Data.StrListOrEmpty | agentgist/data.py:9-11 | A missing list field defaults to the empty list |
| Data.ParsePostAnalysis | agentgist/data.py:7-14 | Success implies `summary` and `sentiment` were present with exactly these values; a missing summary or sentiment, or a sentiment outside the eight names, fails; missing lists become empty |
| Data.StrListRoundTrip | agentgist/data.py:9-11 | A dumped string list validates back to the same list |
| Data.PostAnalysisRoundTrip | agentgist/data.py:7-14 | Dumping an analysis to JSON and validating it gives the same analysis back |
| Data.PostAnalysisDefaults | agentgist/data.py:8-14 | Summary and sentiment alone make a valid analysis, with empty key points, topics and controversies |
| Data.ParseReport | agentgist/data.py:45-54 | Title and summary are required and taken verbatim; takeaways default to empty; missing references default to the empty list; null references stay None |
| Config.RolesDistinct | agentgist/config.py:20-30 | The default and the report-writer roles use different models |
| Json.Index | agentgist/agents/post_fetcher.py:37-50 | `d[k]` returns the dict's value, raises KeyError for a missing key and TypeError on a non-dict |
| Json.Get | agentgist/agents/post_fetcher.py:71-72 | `.get(k, default)` returns the value or the default, and works only on dicts |
| Json.In | agentgist/agents/post_fetcher.py:69 | `k in x` is a key test on dicts, a substring test on strings and an element test on lists, and a TypeError otherwise |
| Json.Iterate | agentgist/agents/post_fetcher.py:61-62 | Iterating a list gives its items; dicts and strings iterate their keys and characters; other values are not iterable |
| Json.LessThan | agentgist/agents/post_fetcher.py:78 | `score < min_score` compares numbers and raises TypeError for anything else |
| Json.AsStr | agentgist/data.py:21-22 | A `str` field accepts a string only, verbatim |
| Json.AsOptStr | agentgist/data.py:35 | An optional string field accepts None or a string |
| Json.AsInt | agentgist/data.py:23 | An `int` field accepts integers, and floats with no fractional part |
| Json.AsReal | agentgist/data.py:37 | A `float` field accepts any number |
| Json.AsStrList | agentgist/data.py:9-11 | A `List[str]` field accepts exactly the lists of strings, element for element |
| PostFetcher.FromTimestamp | agentgist/agents/post_fetcher.py:50 | The creation time is accepted exactly when it is a number naming a second of the years 1 to 9999 in UTC, and is then that number of seconds; other numbers fail with ValueError, and anything else with TypeError |
| PostFetcher.PostFromChild | agentgist/agents/post_fetcher.py:38-51 | Title, text (from `selftext`), author, permalink, category (from `link_flair_text`, None for null), score and `n_comments` (from `num_comments`) come from the child's data; `url_domain` is "" for the self-post domain and the domain otherwise; no comments and no analysis |
| PostFetcher.PostsFromChildren | agentgist/agents/post_fetcher.py:37-53 | One post per child, in the same order, and success exactly when every child converts |
| PostFetcher.ExtractPosts | agentgist/agents/post_fetcher.py:34-53 | For a listing, exactly one post per `data.children` entry, in order, each without comments or analysis |
| PostFetcher.ExtractComments | agentgist/agents/post_fetcher.py:56-95 | All comments score at least `min_score` at the top and 2 below it; the depth cap holds when one is given; for a listing, one comment per kept `t1` child, in order, with its body, author and score, and as replies exactly the extraction of its non-empty reply dict one level down while the cap allows, [] otherwise; non-container inputs, dicts without `data` and data without `children` give [] |
| PostFetcher.ExtractEach | agentgist/agents/post_fetcher.py:61-64 | Every comment extracted from a list input scores at least the default 2, and the depth cap holds |
| PostFetcher.ExtractChildren | agentgist/agents/post_fetcher.py:70-94 | The kept children are described one to one and in order, each comment with the child's body, author and score and the extraction of its reply dict as its replies; scores and depth bounded |
| PostFetcher.ExtractChild | agentgist/agents/post_fetcher.py:71-94 | A child yields one comment exactly when it is a `t1` with a score not below the threshold; that comment carries the child's body, author and score, and its replies are the extraction of the child's non-empty reply dict one level down while the cap allows, [] otherwise |
| PostFetcher.ExtractKindComment | agentgist/agents/post_fetcher.py:77-94 | A `t1` child yields one comment exactly when its score is not below the threshold; a missing score fails with KeyError before anything else is read |
| PostFetcher.KeptComment | agentgist/agents/post_fetcher.py:81-94 | A kept child yields one comment with its body, author and score and, as replies, the extraction of its reply dict one level down when that dict is non-empty and the cap allows; the top-level score bound and the depth cap hold |
| PostFetcher.RepliesOf | agentgist/agents/post_fetcher.py:81-85 | A non-empty reply dict within the cap gives exactly its extraction one level down with the default threshold; otherwise there are no replies |
| PostFetcher.CommentFrom | agentgist/agents/post_fetcher.py:87-94 | The comment carries the child's body, author and validated score, and the given replies |
| PostFetcher.KeptChildren | agentgist/agents/post_fetcher.py:74-79 | The kept children are a selection of the children, each of kind `t1` with a score at least `min_score` |
| PostFetcher.ExtractEachAppend | agentgist/agents/post_fetcher.py:61-64 | Extracting a concatenated list is extracting both halves in order |
| PostFetcher.ListInput | agentgist/agents/post_fetcher.py:61-64 | A list input gives the in-order concatenation of its items' extractions, each at the default threshold |
| PostFetcher.DepthZeroIsFlat | agentgist/agents/post_fetcher.py:84-85 | With a depth cap of 0 no comment has replies |
| PostFetcher.SingleChildListing | agentgist/agents/post_fetcher.py:69-95 | Extracting a one-child listing is extracting that child |
| PostFetcher.LowScoreDropped | agentgist/agents/post_fetcher.py:77-79 | A `t1` child below the threshold contributes nothing, whatever its replies hold |
| PostFetcher.LowScoreListing | agentgist/agents/post_fetcher.py:69-85 | A one-child listing whose comment falls below the threshold yields no comments at all |
| PostFetcher.LowScorePrunesSubtree | agentgist/agents/post_fetcher.py:77-85 | A parent scoring 1 is dropped together with its reply scoring 10 |
| PostFetcher.LeafExtracted | agentgist/agents/post_fetcher.py:70-94 | A `t1` child without replies scoring at least 2 becomes a leaf comment with its body, author and score, at any depth |
| PostFetcher.ParentExtracted | agentgist/agents/post_fetcher.py:70-94 | Without a cap, a parent scoring at least 2 becomes one comment whose replies are its reply, when that reply scores at least 2 |
| PostFetcher.ParentKeepsReply | agentgist/agents/post_fetcher.py:69-95 | A one-parent listing whose parent and reply both score at least 2 gives the parent with its reply as a subtree |
| PostFetcher.AttachComments | agentgist/agents/post_fetcher.py:102-105 | Each post gets exactly the comments extracted from its own permalink's listing, with nothing else changed |
| PostFetcher.FetchSubredditPosts | agentgist/agents/post_fetcher.py:98-106 | The result is the listing's posts, in order, with no analysis; each post's comments are exactly the extraction of the comment listing fetched for its own permalink with `max_comments_per_post`, and every comment scores at least 2 |
| PostFilter.RepliesText | agentgist/agents/post_filter.py:44 | One rendering per reply, in order |
| PostFilter.CommentTextLayout | agentgist/agents/post_filter.py:35-45 | A comment renders as its text, newline and four spaces, then its replies' renderings joined by newlines |
| PostFilter.LeafRendering | agentgist/agents/post_filter.py:35-45 | A comment without replies ends in a newline and four spaces |
| PostFilter.OwnTextRendered | agentgist/agents/post_filter.py:41-45 | A comment's text occurs in its rendering |
| PostFilter.ReplyRendered | agentgist/agents/post_filter.py:41-45 | The rendering of each reply occurs in its parent's rendering |
| PostFilter.EveryTextRendered | agentgist/agents/post_filter.py:41-45 | The text of every comment anywhere in the tree occurs in the rendering of its root |
| PostFilter.CommentTemplateFormat | agentgist/agents/post_filter.py:35-38 | The comment template gives the text, a newline and four spaces, then the replies |
| PostFilter.PostTemplateFormat | agentgist/agents/post_filter.py:25-33 | The post template gives title, space, category, blank line, text, blank line, comments |
| PostFilter.PostTextLayout | agentgist/agents/post_filter.py:48-54 | A post's document text is that template filled with its title, category ("None" when absent), text and comments |
| PostFilter.PostTextShowsComments | agentgist/agents/post_filter.py:48-54 | Each top-level comment's rendering occurs in its post's document |
| PostFilter.CreateDocuments | agentgist/agents/post_filter.py:57-64 | One document per post, in order, carrying the post's permalink and its rendering |
| PostFilter.LastNamed | agentgist/agents/post_filter.py:74 | The tool a name maps to is the last tool with that name |
| PostFilter.ExecuteTool | agentgist/agents/post_filter.py:73-76 | The call succeeds exactly when a tool has the call's name, and invokes such a tool; an unknown name is a KeyError |
| PostFilter.ExecuteNamedTool | agentgist/agents/post_filter.py:73-76 | With one tool per name, the call reaches exactly that tool with the call's arguments |
| PostFilter.SelectPosts | agentgist/agents/post_filter.py:88-89 | The result is an order-preserving subsequence; a post is kept exactly when its permalink was found; no documents means no posts |
| PostFilter.SelectAppend | agentgist/agents/post_filter.py:89 | Selection distributes over concatenation, post by post |
| PostFilter.SelectionBounds | agentgist/agents/post_filter.py:88-89 | Never more posts out than in; posts sharing a permalink are kept or dropped together |
| PostFilter.FilterPosts | agentgist/agents/post_filter.py:79-89 | Success exactly when the model's first tool call names the search tool; no tool call is an IndexError; the search runs over the documents of exactly the given posts, and the result is their selection |
| PostFilter.DocumentsInjected | agentgist/agents/post_filter.py:84-85 | Whatever documents the model put into its call, the result is the same |
| PostAnalyzer.CommentTemplateFormat | agentgist/agents/post_analyzer.py:52-59 | The comment template filled in is its literal pieces around text, author, score and replies |
| PostAnalyzer.PostTemplateCovered | agentgist/agents/post_analyzer.py:38-50 | Every placeholder of the post template gets an argument, so formatting succeeds |
| PostAnalyzer.RepliesXml | agentgist/agents/post_analyzer.py:81 | One block per reply, in order |
| PostAnalyzer.CommentXmlLayout | agentgist/agents/post_analyzer.py:76-82 | A comment block holds text, author and score in that order, then the replies' blocks joined by newlines inside `<replies>` |
| PostAnalyzer.LeafHasEmptyReplies | agentgist/agents/post_analyzer.py:76-82 | A comment without replies has an empty `<replies></replies>` element |
| PostAnalyzer.TagCount | agentgist/agents/post_analyzer.py:76-82 | With no '<' in texts and authors, a tree renders exactly ten tags per comment: one block per node |
| PostAnalyzer.OwnTags | agentgist/agents/post_analyzer.py:52-59 | One block adds exactly ten tags to those of its replies |
| PostAnalyzer.ForestTagCount | agentgist/agents/post_analyzer.py:81 | The newline-joined blocks of a list of comments have ten tags per comment in the list's trees |
| PostAnalyzer.CommentsSection | agentgist/agents/post_analyzer.py:94-96 | A post without comments has an empty comments section |
| PostAnalyzer.SectionTagCount | agentgist/agents/post_analyzer.py:94-96 | The comments section holds ten tags per comment of the post |
| PostAnalyzer.AnalyzePost | agentgist/agents/post_analyzer.py:85-101 | The analysis is validated from the model's answer to the rendered post, comments section and query; success means the summary and sentiment came from that answer; an answer without summary or sentiment fails |
| PostAnalyzer.AnalysisSeesRenderedComments | agentgist/agents/post_analyzer.py:89-99 | Posts with the same fields and the same rendered comments get the same analysis |
| ReportWriter.BlockHeadFormat | agentgist/agents/report_writer.py:10-15 | The block up to the summary filled in |
| ReportWriter.BlockTailFormat | agentgist/agents/report_writer.py:15-20 | The rest of the block filled in |
| ReportWriter.SummarizedPostFormat | agentgist/agents/report_writer.py:10-20 | The block is its head followed by its tail |
| ReportWriter.SummarizedPostText | agentgist/agents/report_writer.py:53-64 | Rendering succeeds exactly when the post has an analysis; otherwise an AttributeError |
| ReportWriter.BlockArgsLookup | agentgist/agents/report_writer.py:55-63 | Each placeholder is filled with its own post or analysis field |
| ReportWriter.BlockPieces | agentgist/agents/report_writer.py:53-64 | The block is the template's literal pieces around the seven fields |
| ReportWriter.SummarizedPostLayout | agentgist/agents/report_writer.py:10-20 | Title, text, score, summary, topics, key points and controversies appear in template order, each inside its element |
| ReportWriter.SentimentNotShown | agentgist/agents/report_writer.py:10-20 | The template has no sentiment placeholder, and changing the sentiment leaves the block unchanged |
| ReportWriter.PostsSection | agentgist/agents/report_writer.py:71-76 | The section succeeds exactly when every post has an analysis, and fails with AttributeError otherwise; no posts give the empty section |
| ReportWriter.BlockShowsPost | agentgist/agents/report_writer.py:53-64 | A block shows its post's title and its analysis' summary |
| ReportWriter.SectionShowsEveryPost | agentgist/agents/report_writer.py:71-76 | Every post's title and summary occur in the posts section |
| ReportWriter.WriteReport | agentgist/agents/report_writer.py:67-79 | A post without analysis fails with AttributeError before the model is asked; no posts ask with an empty section; title and summary come from the model's answer to the rendered section |
| FilterQuery.RequestFilterQuery | agentgist/agents/filter_query.py:5-8 | Without a resume value the step suspends with the payload `{"posts": posts}`; when resumed it returns `resume["filter_query"]`, or a KeyError without that key |
| FilterQuery.UiResume | app.py:104 | The user interface resumes with the user's query under `filter_query` |
| FilterQuery.SuspendThenResume | agentgist/agents/filter_query.py:7-8 | The first execution suspends, and resuming as the user interface does returns the user's query |
| Workflow.Begin | agentgist/workflow.py:25-34 | Fetch receives the input's subreddit and `max_posts`; the run suspends exactly when `fetch_subreddit_posts` succeeds, with exactly its posts as the suspended posts and the `posts` payload, and otherwise fails with the fetch's error |
| Workflow.AnalyzeCalls | agentgist/workflow.py:40-41 | One analyze call per post, in order |
| Workflow.AnalyzeAll | agentgist/workflow.py:40-42 | One analyze call per post, in order, with the given role and the query; the loop succeeds exactly when every post's analysis succeeds, and then each post gets exactly the analysis the step returned; a failure stops at the first failing post, after successful analyses of all earlier ones, with that post's error |
| Workflow.CompletedRun | agentgist/workflow.py:34-48 | A run that filtered the posts down to a selection, analysed each selected post and wrote the report completes as designed: its references are that selection in order, each with the analysis returned for it, and its report is the report step's answer for them with those references set |
| Workflow.Resume | agentgist/workflow.py:34-49 | A missing `filter_query` fails with KeyError; a failing filter, analysis or report step fails the run with its error; when the filter and every analysis succeed, the run completes exactly when the report step succeeds; a completed run used exactly `filter_posts`'s selection for the returned query, gave each selected post, in order, the analysis `analyze_post` returned for it, and returns `write_report`'s report for those posts with them as references; its calls were query, filter (default role, all posts), one analyze per selected post and report (report-writer role), in that order |
| Workflow.ReferencesAreSelection | agentgist/workflow.py:37-48 | When the fetched posts have no analysis, the references with analysis removed are exactly `filter_posts`'s selection, and so an order-preserving subsequence of the posts |
| Workflow.AnalysedSelection | agentgist/workflow.py:40-48 | Selected unanalysed posts that were given analyses, one to one, give back the selection when the analyses are removed |
| Workflow.ResumeCompletes | agentgist/workflow.py:34-49 | A resumed run with a query completes exactly when the filter, the analysis of every selected post and the report step all succeed |
| Workflow.UiResumedRun | agentgist/workflow.py:34-49 | Resumed with the user's query, a suspended run completes exactly when filter, every analysis and report succeed; a completed one filtered the suspended posts with that query, has the filter's selection as references and returns the report step's answer |
| Workflow.ReferencesComeFromFetch | agentgist/workflow.py:25-49 | Driven as the user interface does, the run suspends exactly when `fetch_subreddit_posts` succeeds, and then completes exactly when the filter, every analysis and the report succeed; a completed run gave the filter the user's query and the fetched posts, its references without analysis are exactly the filter's selection of them, in fetched order, and its report is `write_report`'s answer with those references |
| GroqStrategies.TruncateContext | agentgist/groq_strategies.py:37-54 | Text within the budget is returned unchanged |
| GroqStrategies.TruncationShape | agentgist/groq_strategies.py:40-54 | Over budget, the result is the first `max_tokens` chars, a marker, the `2·max_tokens` chars starting at `(len − 2·max_tokens) // 2`, a marker and the last `max_tokens` chars; with `max_tokens = 0`, two markers then the whole text |
| GroqStrategies.TruncatedLength | agentgist/groq_strategies.py:40-54 | A truncated text has length `4·max_tokens + 50`, so a text less than 50 characters over the budget comes back longer |
| GroqStrategies.TruncationKeepsEndsAndCentre | agentgist/groq_strategies.py:44-54 | The result starts with the text's start, ends with its end, and has the middle part within one character of the centre |
| GroqStrategies.ReplaceEach | agentgist/groq_strategies.py:73-74 | Shortening replacements never lengthen the text; a text with none of the phrases is unchanged |
| GroqStrategies.OptimizePrompt | agentgist/groq_strategies.py:56-76 | The result is never longer than the normalised prompt; without any phrase it is the normalised prompt, which has no stray whitespace and the prompt's tokens in order |
| GroqStrategies.PhraseLengths | agentgist/groq_strategies.py:63-71 | Seven phrases, none empty, each replaced by something no longer |
| GroqStrategies.ShortTextUnreplaced | agentgist/groq_strategies.py:73-74 | A text shorter than every phrase is left as it is |
| GroqStrategies.FirstPhraseKeepsPrefix | agentgist/groq_strategies.py:74 | In "in order in order to to" the phrase is found only at the second "in" |
| GroqStrategies.FirstPhraseAtFront | agentgist/groq_strategies.py:74 | A leading "in order to" is replaced and the rest scanned after it |
| GroqStrategies.OptimizeJoined | agentgist/groq_strategies.py:57-76 | A space-joined token list is already normalised, so only the replacements apply |
| GroqStrategies.OtherPhraseLengths | agentgist/groq_strategies.py:63-71 | The six later phrases have at least 17 characters |
| GroqStrategies.OtherPhrasesAbsent | agentgist/groq_strategies.py:73-74 | Texts of at most 16 characters are left alone by the later phrases |
| GroqStrategies.FirstPhraseInLongerExample | agentgist/groq_strategies.py:74 | "in order in order to to" becomes "in order to to" |
| GroqStrategies.FirstPhraseInShorterExample | agentgist/groq_strategies.py:74 | "in order to to" becomes "to to" |
| GroqStrategies.OptimizeOnce | agentgist/groq_strategies.py:56-76 | Optimising "in order in order to to" gives "in order to to" |
| GroqStrategies.OptimizeTwice | agentgist/groq_strategies.py:56-76 | Optimising "in order to to" gives "to to" |
| GroqStrategies.OptimizeNotIdempotent | agentgist/groq_strategies.py:56-76 | Optimising twice differs from optimising once |
| GroqStrategies.Score | agentgist/groq_strategies.py:131-134 | A level's score is the number of its keyword entries that occur in the lowered query, the size of the set of matching positions; so it is at most its keyword count, and zero exactly when none of its keywords occurs |
| GroqStrategies.MatchIndicesCons | agentgist/groq_strategies.py:131-134 | The matching positions of a keyword list are its first entry, when it occurs, and the matching positions of the rest |
| GroqStrategies.ScoreByPresence | agentgist/groq_strategies.py:131-134 | Scores depend only on which keywords occur, not how often |
| GroqStrategies.KeywordScores | agentgist/groq_strategies.py:131-134 | An occurring keyword gives its level a positive score |
| GroqStrategies.ScoresOf | agentgist/groq_strategies.py:82-134 | Scores are bounded by 14, 10 and 9 |
| GroqStrategies.AssessComplexity | agentgist/groq_strategies.py:124-141 | High exactly when the high score beats the medium score; all-zero scores give Low |
| GroqStrategies.DecisionOrder | agentgist/groq_strategies.py:136-141 | High iff high > medium; Medium iff not High and medium > low; Low otherwise, so ties go to the cheaper level |
| GroqStrategies.ListContainsIs | agentgist/groq_strategies.py:103-115 | A text containing "list" contains "is" |
| GroqStrategies.ListScores | agentgist/groq_strategies.py:99-110 | A query containing "list" has a positive medium score |
| GroqStrategies.IsScores | agentgist/groq_strategies.py:111-121 | A query containing "is" has a positive low score |
| GroqStrategies.ListAlsoScoresIs | agentgist/groq_strategies.py:99-141 | A query mentioning "list" also scores the low keyword "is", so with no other keyword it is routed Low |
| GroqStrategies.RoleForTask | agentgist/groq_strategies.py:143-150 | The report-writer role exactly for high complexity |
| GroqStrategies.GetModelForTask | agentgist/groq_strategies.py:143-150 | The report-writer model exactly for high complexity, the default model otherwise |
| GroqStrategies.OptimizeMessage | agentgist/groq_strategies.py:189-202 | The message kind is kept; human prompts are optimised; system prompts of at most 8000 characters and other messages are unchanged |
| GroqStrategies.LongSystemPromptTruncated | agentgist/groq_strategies.py:194-199 | A system prompt over 8000 characters is truncated to 8050 characters |
| GroqStrategies.OptimizeMessages | agentgist/groq_strategies.py:186-204 | Same number of messages, in order, each rewritten |
| GroqStrategies.CreateOptimizedChat | agentgist/groq_strategies.py:233-256 | The routed model replaces the given one only for a non-empty query; the optimisation flag is passed through |
| Templates.Format | agentgist/agents/post_filter.py:42-45 | Formatting succeeds exactly when every placeholder has an argument; otherwise a KeyError naming a placeholder |
| Templates.FormatAppend | agentgist/agents/report_writer.py:55-64 | Formatting a concatenated template formats each part |
| Templates.FormatIgnoresUnmentioned | agentgist/agents/report_writer.py:55-64 | An argument with no placeholder does not change the result |
| Templates.FormatCountChar | agentgist/agents/post_analyzer.py:77-82 | With arguments free of a character, the result has exactly the template's occurrences of it |
| Strings.Join | agentgist/agents/post_filter.py:44 | Joining nothing is empty, and the result starts with the first element |
| Strings.JoinContains | agentgist/agents/post_filter.py:44 | Every element occurs in the joined string |
| Strings.JoinCountChar | agentgist/agents/post_analyzer.py:81 | A joined string's count of a character is its elements' counts plus the separators' |
| Strings.Replace | agentgist/groq_strategies.py:74 | A shorter replacement never lengthens the text; a text without the phrase is unchanged |
| Strings.ReplaceSkip | agentgist/groq_strategies.py:74 | A prefix in which no occurrence starts is kept as it is |
| Strings.WordsOfJoin | agentgist/groq_strategies.py:60 | Splitting space-joined tokens gives the tokens back |
| Strings.JoinTokensWellSpaced | agentgist/groq_strategies.py:60 | Tokens joined by single spaces have no leading, trailing or repeated whitespace |
| Strings.NormalizeShape | agentgist/groq_strategies.py:60 | Normalised text is well spaced and has the same tokens in order |
| Strings.SliceIndex | agentgist/groq_strategies.py:49-52 | Slice bounds count from the end when negative and are clamped to the string |
| Strings.SliceInRange | agentgist/groq_strategies.py:49-52 | In-range bounds slice exactly that range |
| Strings.SliceLast | agentgist/groq_strategies.py:50 | `text[-k:]` is the last k characters |
| Strings.Lower | agentgist/groq_strategies.py:127 | Lowering keeps the length and maps every character through ASCII lowering |

## Left out

- HTTP: the requests of `_fetch_posts` and `_fetch_comments` are function parameters returning JSON or an error. The URLs, headers and status checks are not modelled.
- Chat models: `with_structured_output`, `bind_tools` and `invoke` are modelled as parameters. So are the prompt prose around the rendered blocks, and the `EnhancedGroqChat` and `ChatGroq` plumbing.
- The vector search and embeddings (`agentgist/tools.py`, `agentgist/models.py`) are a parameter. These files are not part of this model.
- The langgraph checkpointer and replay (`entrypoint`, `task`, `interrupt`, `MemorySaver`) are left out; only the explicit suspended state is modelled. Nothing is stated about resuming a run that never suspended, so `Workflow.Resume` requires a suspended state.
- Workflow.Resume: the analysis and report steps are `Env` functions. They are not `PostAnalyzer.AnalyzePost` and `ReportWriter.WriteReport` themselves, which are modelled and proved separately.
- Python object aliasing: the loop assigns each analysis to the post objects, and those objects are shared with the fetched list. The model returns new values and states the references instead.
- Floats and dates: `upvote_ratio`, `created_at.isoformat()`, temperatures and the list `repr` used in prompts are opaque printer functions.
- Json.AsInt: pydantic's lax mode also accepts a numeric string such as "3" for an `int` field; the model rejects every string.
- Json.AsReal: pydantic's lax mode also accepts a numeric string such as "0.9" for a `float` field; the model rejects every string.
- PostFetcher.FromTimestamp: the range is that of `datetime` (years 1 to 9999); the platform's narrower `time_t` range, the difference between OverflowError, OSError and ValueError, and rounding of fractional seconds at the upper edge are not modelled.
- Booleans in JSON are not modelled, because none of the read fields is a boolean.
- Post ids: the `id=` argument of `Post(...)` has no field in `Post`, so ids are not modelled.
- `split()` and `lower()` use an explicit ASCII whitespace set and ASCII lowering. Unicode whitespace and case mapping are not modelled.
- GroqStrategies.TruncateContext: with a negative `max_tokens` the truncating branch always runs, as in the source, and the body follows the source's floor division and slicing there (Dafny's `/` by a positive constant agrees with Python's `//`); no shape lemma is stated for negative budgets.
- The non-idempotence example writes its prompts as their words joined by single spaces, which is the same string.
- Configuration constants other than the two model roles, logging, the Streamlit UI (apart from its resume value), and the benchmark and connectivity scripts are left out.
