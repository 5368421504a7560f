/** The human-in-the-loop step: the first execution suspends the workflow
    and hands the fetched posts to the caller; the resumed execution returns
    the filter query the caller resumed with. */
module FilterQuery {
  import opened Wrappers
  import opened Json
  import opened Data

  /** The key of the interrupt payload and the key read from the resume value. */
  const PostsKey: string := "posts"
  const QueryKey: string := "filter_query"

  /** An execution of a step either suspends with a payload for the caller or
      returns its value. */
  datatype Step<T> = Interrupt(payload: map<string, seq<Post>>) | Returned(value: T)

  /** `request_filter_query`. `resume` is the value the caller resumed the
      suspended run with; the first execution has none. Reading a resume
      value without the query raises KeyError. */
  function RequestFilterQuery(posts: seq<Post>, resume: Option<map<string, string>>)
    : (r: PyResult<Step<string>>)
    ensures resume.None? ==> r.Success? && r.value.Interrupt?
    ensures resume.None? ==> r.value.payload.Keys == {PostsKey} && r.value.payload[PostsKey] == posts
    ensures resume.Some? ==> (r.Success? <==> QueryKey in resume.value)
    ensures resume.Some? && r.Success? ==> r.value == Returned(resume.value[QueryKey])
    ensures r.Failure? ==> r.error == KeyError(QueryKey)
  {
    match resume
    case None => Success(Interrupt(map[PostsKey := posts]))
    case Some(feedback) =>
      if QueryKey in feedback then Success(Returned(feedback[QueryKey]))
      else Failure(KeyError(QueryKey))
  }

  /** The value the user interface resumes with: the query under its key. */
  function UiResume(userQuery: string): (resume: map<string, string>)
    ensures QueryKey in resume && resume[QueryKey] == userQuery
  {
    map[QueryKey := userQuery]
  }

  /** The step never returns without a resume value, and it returns exactly the
      query the user interface resumes with. */
  lemma SuspendThenResume(posts: seq<Post>, userQuery: string)
    ensures RequestFilterQuery(posts, None).value.Interrupt?
    ensures RequestFilterQuery(posts, Some(UiResume(userQuery))) == Success(Returned(userQuery))
  {
  }
}
