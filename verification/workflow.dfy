/** `write_report_workflow` as a state machine. The run starts, fetches the
    posts and suspends to ask for the filter query; resumed with the query,
    it filters, analyses every selected post and writes the report, whose
    references are replaced by the analysed selection. The network, the chat
    models and the vector search are parameters; the trace records every
    step call in order, with the model role and the query it received. */
module Workflow {
  import opened Wrappers
  import opened Json
  import opened Config
  import opened Data
  import opened PostFetcher
  import opened PostFilter
  import opened FilterQuery

  datatype WorkflowInput = WorkflowInput(subreddit: string, maxPosts: int)

  /** Everything outside the modelled code, each taking the model role the
      workflow creates its chat model for: the listing and comment requests,
      the filter model's tool calls for a query, the vector search, and the
      analysis and report steps (`PostAnalyzer.AnalyzePost` and
      `ReportWriter.WriteReport` over that role's model). */
  datatype Env = Env(
    fetchListing: (string, int) -> PyResult<Json>,
    fetchComments: (string, int) -> PyResult<Json>,
    toolCalls: Role -> string -> seq<ToolCall>,
    search: ToolArgs -> seq<Document>,
    analyze: (Role, string, Post) -> PyResult<PostAnalysis>,
    writeReport: (Role, string, seq<Post>) -> PyResult<Report>)

  /** One step call and what it was given. */
  datatype Call =
    | FetchCall(subreddit: string, maxPosts: int)
    | QueryCall(posts: seq<Post>)
    | FilterCall(role: Role, query: string, posts: seq<Post>)
    | AnalyzeCall(role: Role, query: string, post: Post)
    | ReportCall(role: Role, query: string, posts: seq<Post>)

  datatype State =
    | Start(input: WorkflowInput)
    | Suspended(input: WorkflowInput, posts: seq<Post>, payload: map<string, seq<Post>>)
    | Completed(report: Report)
    | Failed(error: PyError)

  /** Where a run stopped and the step calls it made. */
  datatype Run = Run(state: State, trace: seq<Call>)

  /** The first execution: fetch the posts, then suspend at the query step
      with the fetched posts as the payload; a failing fetch fails the run. */
  function Begin(env: Env, s: State): (r: Run)
    requires s.Start?
    ensures var fetched := FetchSubredditPosts(env.fetchListing, env.fetchComments, s.input.subreddit, s.input.maxPosts);
      && (r.state.Suspended? <==> fetched.Success?)
      && (r.state.Suspended? ==> r.state.posts == fetched.value)
      && (fetched.Failure? ==> r == Run(Failed(fetched.error), [FetchCall(s.input.subreddit, s.input.maxPosts)]))
    ensures |r.trace| > 0 && r.trace[0] == FetchCall(s.input.subreddit, s.input.maxPosts)
    ensures r.state.Suspended? ==>
      && r.trace == [FetchCall(s.input.subreddit, s.input.maxPosts), QueryCall(r.state.posts)]
      && r.state.input == s.input
      && r.state.payload.Keys == {PostsKey} && r.state.payload[PostsKey] == r.state.posts
      && forall i :: 0 <= i < |r.state.posts| ==> r.state.posts[i].analysis == None
  {
    var input := s.input;
    var fetchCall := FetchCall(input.subreddit, input.maxPosts);
    match FetchSubredditPosts(env.fetchListing, env.fetchComments, input.subreddit, input.maxPosts)
    case Failure(e) => Run(Failed(e), [fetchCall])
    case Success(posts) =>
      var step := RequestFilterQuery(posts, None);
      Run(Suspended(input, posts, step.value.payload), [fetchCall, QueryCall(posts)])
  }

  /** The analyses of the loop and the analyze calls made, up to the first
      failure. */
  datatype Analysed = Analysed(result: PyResult<seq<Post>>, calls: seq<Call>)

  function AnalyzeCalls(role: Role, query: string, posts: seq<Post>): (calls: seq<Call>)
    ensures |calls| == |posts|
    ensures forall i :: 0 <= i < |posts| ==> calls[i] == AnalyzeCall(role, query, posts[i])
  {
    seq(|posts|, i requires 0 <= i < |posts| => AnalyzeCall(role, query, posts[i]))
  }

  /** The loop over the selected posts: each is analysed in turn and gets its
      analysis assigned; a failing analysis ends the run. */
  function AnalyzeAll(env: Env, role: Role, query: string, posts: seq<Post>): (a: Analysed)
    ensures |a.calls| <= |posts|
    ensures forall i :: 0 <= i < |a.calls| ==> a.calls[i] == AnalyzeCall(role, query, posts[i])
    ensures a.result.Success? ==> |a.calls| == |posts| && |a.result.value| == |posts|
    ensures a.result.Success? ==> forall i :: 0 <= i < |posts| ==>
      && a.result.value[i].analysis.Some?
      && a.result.value[i] == posts[i].(analysis := a.result.value[i].analysis)
      && env.analyze(role, query, posts[i]) == Success(a.result.value[i].analysis.value)
    ensures a.result.Failure? ==>
      && |a.calls| > 0
      && env.analyze(role, query, posts[|a.calls| - 1]) == Failure(a.result.error)
      && forall i :: 0 <= i < |a.calls| - 1 ==> env.analyze(role, query, posts[i]).Success?
    ensures a.result.Success? <==> forall i :: 0 <= i < |posts| ==> env.analyze(role, query, posts[i]).Success?
  {
    if |posts| == 0 then Analysed(Success([]), [])
    else
      var call := AnalyzeCall(role, query, posts[0]);
      match env.analyze(role, query, posts[0])
      case Failure(e) => Analysed(Failure(e), [call])
      case Success(an) =>
        var rest := AnalyzeAll(env, role, query, posts[1..]);
        var calls := [call] + rest.calls;
        CallsCons(role, query, posts, rest.calls);
        match rest.result
        case Failure(e) =>
          assert posts[|calls| - 1] == posts[1..][|rest.calls| - 1];
          EarlierSucceeded(env, role, query, posts, |rest.calls| - 1);
          Analysed(Failure(e), calls)
        case Success(ps) =>
          var done := [posts[0].(analysis := Some(an))] + ps;
          DoneCons(env, role, query, posts, an, ps);
          Analysed(Success(done), calls)
  }

  /** The analyses before the first failure in the rest were preceded by a
      successful analysis of the first post. */
  lemma EarlierSucceeded(env: Env, role: Role, query: string, posts: seq<Post>, n: nat)
    requires |posts| > 0 && env.analyze(role, query, posts[0]).Success? && n < |posts|
    requires forall i :: 0 <= i < n ==> env.analyze(role, query, posts[1..][i]).Success?
    ensures forall i :: 0 <= i < n + 1 ==> env.analyze(role, query, posts[i]).Success?
  {
    forall i | 0 < i < n + 1 ensures env.analyze(role, query, posts[i]).Success? {
      assert posts[i] == posts[1..][i - 1];
    }
  }

  lemma CallsCons(role: Role, query: string, posts: seq<Post>, rest: seq<Call>)
    requires |posts| > 0 && |rest| <= |posts| - 1
    requires forall i :: 0 <= i < |rest| ==> rest[i] == AnalyzeCall(role, query, posts[1..][i])
    ensures var calls := [AnalyzeCall(role, query, posts[0])] + rest;
      forall i :: 0 <= i < |calls| ==> calls[i] == AnalyzeCall(role, query, posts[i])
  {
    var calls := [AnalyzeCall(role, query, posts[0])] + rest;
    forall i | 0 < i < |calls| ensures calls[i] == AnalyzeCall(role, query, posts[i]) {
      assert calls[i] == rest[i - 1] && posts[i] == posts[1..][i - 1];
    }
  }

  lemma DoneCons(env: Env, role: Role, query: string, posts: seq<Post>, an: PostAnalysis, ps: seq<Post>)
    requires |posts| > 0 && env.analyze(role, query, posts[0]) == Success(an)
    requires |ps| == |posts| - 1
    requires forall i :: 0 <= i < |posts| - 1 ==>
      && ps[i].analysis.Some?
      && ps[i] == posts[1..][i].(analysis := ps[i].analysis)
      && env.analyze(role, query, posts[1..][i]) == Success(ps[i].analysis.value)
    ensures var done := [posts[0].(analysis := Some(an))] + ps;
      forall i :: 0 <= i < |posts| ==>
        && done[i].analysis.Some?
        && done[i] == posts[i].(analysis := done[i].analysis)
        && env.analyze(role, query, posts[i]) == Success(done[i].analysis.value)
  {
    var done := [posts[0].(analysis := Some(an))] + ps;
    forall i | 0 < i < |posts|
      ensures && done[i].analysis.Some?
              && done[i] == posts[i].(analysis := done[i].analysis)
              && env.analyze(role, query, posts[i]) == Success(done[i].analysis.value)
    {
      assert done[i] == ps[i - 1] && posts[i] == posts[1..][i - 1];
    }
  }

  /** The unanalysed form of a post. */
  function Unanalysed(p: Post): Post {
    p.(analysis := None)
  }

  /** What a completed resumed run did with query `q` over the fetched
      `posts`: the filter step's selection is what the filter returns for the
      query; each selected post, in order, carries the analysis the analyze
      step returned for it; the report is the report step's answer for the
      analysed selection, with that selection as its references; and the
      trace is the query, filter, analyze and report calls in that order. */
  predicate CompletedAsDesigned(env: Env, posts: seq<Post>, q: string, r: Run) {
    && r.state.Completed?
    && FilterPosts(env.toolCalls(Default), env.search, q, posts).Success?
    && var selected := FilterPosts(env.toolCalls(Default), env.search, q, posts).value;
    && r.state.report.references.Some?
    && var refs := r.state.report.references.value;
    && |refs| == |selected|
    && (forall i :: 0 <= i < |refs| ==>
          && refs[i].analysis.Some?
          && refs[i] == selected[i].(analysis := refs[i].analysis)
          && env.analyze(Default, q, selected[i]) == Success(refs[i].analysis.value))
    && env.writeReport(ReportWriter, q, refs).Success?
    && r.state.report == env.writeReport(ReportWriter, q, refs).value.(references := Some(refs))
    && r.trace == [QueryCall(posts), FilterCall(Default, q, posts)]
                  + AnalyzeCalls(Default, q, selected) + [ReportCall(ReportWriter, q, refs)]
  }

  /** A run that filtered `posts` down to `selected`, analysed each of them
      and wrote the report is one `CompletedAsDesigned`. */
  lemma CompletedRun(env: Env, posts: seq<Post>, q: string, selected: seq<Post>, report: Report)
    requires FilterPosts(env.toolCalls(Default), env.search, q, posts) == Success(selected)
    requires AnalyzeAll(env, Default, q, selected).result.Success?
    requires env.writeReport(ReportWriter, q, AnalyzeAll(env, Default, q, selected).result.value) == Success(report)
    ensures var a := AnalyzeAll(env, Default, q, selected);
      var refs := a.result.value;
      CompletedAsDesigned(env, posts, q, Run(Completed(report.(references := Some(refs))),
        [QueryCall(posts), FilterCall(Default, q, posts)] + a.calls + [ReportCall(ReportWriter, q, refs)]))
  {
    var a := AnalyzeAll(env, Default, q, selected);
    assert a.calls == AnalyzeCalls(Default, q, selected);
  }

  /** The resumed execution: the query step returns the query, which filter,
      every analysis and the report receive; filtering and analysis use the
      default model, the report the report-writer model. */
  function Resume(env: Env, s: State, resume: map<string, string>): (r: Run)
    requires s.Suspended?
    ensures r.state.Completed? || r.state.Failed?
    ensures |r.trace| > 0 && r.trace[0] == QueryCall(s.posts)
    ensures QueryKey !in resume ==> r == Run(Failed(KeyError(QueryKey)), [QueryCall(s.posts)])
    ensures QueryKey in resume ==>
      var q := resume[QueryKey];
      var filtered := FilterPosts(env.toolCalls(Default), env.search, q, s.posts);
      && (filtered.Failure? ==> r == Run(Failed(filtered.error), [QueryCall(s.posts), FilterCall(Default, q, s.posts)]))
      && (filtered.Success? && AnalyzeAll(env, Default, q, filtered.value).result.Failure? ==>
            r.state == Failed(AnalyzeAll(env, Default, q, filtered.value).result.error))
      && (filtered.Success? && AnalyzeAll(env, Default, q, filtered.value).result.Success? ==>
            var w := env.writeReport(ReportWriter, q, AnalyzeAll(env, Default, q, filtered.value).result.value);
            && (r.state.Completed? <==> w.Success?)
            && (w.Failure? ==> r.state == Failed(w.error)))
    ensures r.state.Completed? ==> QueryKey in resume && CompletedAsDesigned(env, s.posts, resume[QueryKey], r)
  {
    var queryCall := QueryCall(s.posts);
    match RequestFilterQuery(s.posts, Some(resume))
    case Failure(e) => Run(Failed(e), [queryCall])
    case Success(step) =>
      var q := step.value;
      var filterCall := FilterCall(Default, q, s.posts);
      match FilterPosts(env.toolCalls(Default), env.search, q, s.posts)
      case Failure(e) => Run(Failed(e), [queryCall, filterCall])
      case Success(selected) =>
        var analysed := AnalyzeAll(env, Default, q, selected);
        var calls := [queryCall, filterCall] + analysed.calls;
        match analysed.result
        case Failure(e) => Run(Failed(e), calls)
        case Success(refs) =>
          var reportCall := ReportCall(ReportWriter, q, refs);
          match env.writeReport(ReportWriter, q, refs)
          case Failure(e) => Run(Failed(e), calls + [reportCall])
          case Success(report) =>
            CompletedRun(env, s.posts, q, selected, report);
            Run(Completed(report.(references := Some(refs))), calls + [reportCall])
  }

  /** The posts of a run's references with their analyses removed. */
  function UnanalysedAll(refs: seq<Post>): (r: seq<Post>)
    ensures |r| == |refs| && forall i :: 0 <= i < |refs| ==> r[i] == Unanalysed(refs[i])
  {
    seq(|refs|, i requires 0 <= i < |refs| => Unanalysed(refs[i]))
  }

  /** When the fetched posts carry no analysis, the references of a completed
      run are exactly the filter's selection, in its order, each with its
      analysis added; so they are fetched posts in fetched order. */
  lemma ReferencesAreSelection(env: Env, posts: seq<Post>, q: string, r: Run)
    requires CompletedAsDesigned(env, posts, q, r)
    requires forall i :: 0 <= i < |posts| ==> posts[i].analysis == None
    ensures UnanalysedAll(r.state.report.references.value)
      == FilterPosts(env.toolCalls(Default), env.search, q, posts).value
    ensures IsSubsequence(UnanalysedAll(r.state.report.references.value), posts)
  {
    var refs := r.state.report.references.value;
    var selected := FilterPosts(env.toolCalls(Default), env.search, q, posts).value;
    AnalysedSelection(refs, selected, posts);
  }

  /** Posts taken from unanalysed `posts` and given analyses lose exactly
      those analyses again. */
  lemma AnalysedSelection(refs: seq<Post>, selected: seq<Post>, posts: seq<Post>)
    requires IsSubsequence(selected, posts) && |refs| == |selected|
    requires forall i :: 0 <= i < |posts| ==> posts[i].analysis == None
    requires forall i :: 0 <= i < |refs| ==> refs[i] == selected[i].(analysis := refs[i].analysis)
    ensures UnanalysedAll(refs) == selected
  {
    forall i | 0 <= i < |refs| ensures Unanalysed(refs[i]) == selected[i] {
      assert selected[i] in selected;
      SubsequenceElements(selected, posts, selected[i]);
    }
  }

  /** A resumed run with a query completes exactly when the filter, the
      analysis of every selected post and the report all succeed. */
  lemma ResumeCompletes(env: Env, s: State, resume: map<string, string>)
    requires s.Suspended? && QueryKey in resume
    ensures var q := resume[QueryKey];
      var filtered := FilterPosts(env.toolCalls(Default), env.search, q, s.posts);
      Resume(env, s, resume).state.Completed? <==>
        && filtered.Success?
        && (forall i :: 0 <= i < |filtered.value| ==> env.analyze(Default, q, filtered.value[i]).Success?)
        && env.writeReport(ReportWriter, q, AnalyzeAll(env, Default, q, filtered.value).result.value).Success?
  {
  }

  /** Resuming a suspended run with the user's query: it completes exactly
      when the filter, every analysis and the report succeed, and a completed
      run filtered the suspended posts with that query, took the filter's
      selection as its references and returns the report step's answer. */
  lemma UiResumedRun(env: Env, s: State, userQuery: string)
    requires s.Suspended?
    requires forall i :: 0 <= i < |s.posts| ==> s.posts[i].analysis == None
    ensures var r := Resume(env, s, UiResume(userQuery));
      var filtered := FilterPosts(env.toolCalls(Default), env.search, userQuery, s.posts);
      && (r.state.Completed? <==>
          && filtered.Success?
          && (forall i :: 0 <= i < |filtered.value| ==> env.analyze(Default, userQuery, filtered.value[i]).Success?)
          && env.writeReport(ReportWriter, userQuery, AnalyzeAll(env, Default, userQuery, filtered.value).result.value).Success?)
      && (r.state.Completed? ==>
          var refs := r.state.report.references.value;
          && r.trace[1] == FilterCall(Default, userQuery, s.posts)
          && UnanalysedAll(refs) == filtered.value
          && IsSubsequence(UnanalysedAll(refs), s.posts)
          && r.state.report == env.writeReport(ReportWriter, userQuery, refs).value.(references := Some(refs)))
  {
    ResumeCompletes(env, s, UiResume(userQuery));
    var r := Resume(env, s, UiResume(userQuery));
    if r.state.Completed? {
      ReferencesAreSelection(env, s.posts, userQuery, r);
    }
  }

  /** The whole run as the user interface drives it: start, suspend, resume
      with the user's query. The run suspends exactly when the fetch
      succeeds, with the fetched posts; it then completes exactly when the
      filter, every analysis and the report succeed; the filter step gets the
      user's query and those posts; and a completed report is the report
      step's answer whose references are the filter's selection of the
      fetched posts, in fetched order, each now carrying its analysis. */
  lemma ReferencesComeFromFetch(env: Env, input: WorkflowInput, userQuery: string)
    ensures var fetched := FetchSubredditPosts(env.fetchListing, env.fetchComments, input.subreddit, input.maxPosts);
      var b := Begin(env, Start(input));
      && (b.state.Suspended? <==> fetched.Success?)
      && (b.state.Suspended? ==>
        var r := Resume(env, b.state, UiResume(userQuery));
        var filtered := FilterPosts(env.toolCalls(Default), env.search, userQuery, fetched.value);
        && (r.state.Completed? <==>
          && filtered.Success?
          && (forall i :: 0 <= i < |filtered.value| ==> env.analyze(Default, userQuery, filtered.value[i]).Success?)
          && env.writeReport(ReportWriter, userQuery, AnalyzeAll(env, Default, userQuery, filtered.value).result.value).Success?)
        && (r.state.Completed? ==>
          var refs := r.state.report.references.value;
          && r.trace[1] == FilterCall(Default, userQuery, fetched.value)
          && UnanalysedAll(refs) == filtered.value
          && IsSubsequence(UnanalysedAll(refs), fetched.value)
          && r.state.report == env.writeReport(ReportWriter, userQuery, refs).value.(references := Some(refs))))
  {
    var b := Begin(env, Start(input));
    if b.state.Suspended? {
      UiResumedRun(env, b.state, userQuery);
    }
  }
}
