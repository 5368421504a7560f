/** The token-saving and routing heuristics wrapped around every chat model:
    context truncation, prompt compaction, keyword-based complexity routing,
    the per-message rewrite before a model call, and the model choice when a
    chat model is created. */
module GroqStrategies {
  import opened Wrappers
  import opened Strings
  import opened Config

  // ===========================================================================
  // TokenOptimizer.truncate_context
  // ===========================================================================

  /** Inserted twice where text is cut out; 25 characters. */
  const TruncationMarker: string := "...[content truncated]..."

  /** Keep the first and last quarter of the character budget (4 characters
      per token) and a centred middle half, separated by two markers. The
      divisions are Python's floor divisions; with a positive divisor Dafny's
      division agrees with them. */
  function TruncateContext(text: string, maxTokens: int): (r: string)
    ensures |text| <= 4 * maxTokens ==> r == text
    ensures |text| > 4 * maxTokens ==> |r| > 0
  {
    var charLimit := maxTokens * 4;
    if |text| <= charLimit then text
    else
      var introSize := charLimit / 4;
      var conclusionSize := charLimit / 4;
      var middleSize := charLimit - (introSize + conclusionSize);
      var intro := Slice(text, 0, introSize);
      var conclusion := Slice(text, -conclusionSize, |text|);
      var middleStart := (|text| - middleSize) / 2;
      var middle := Slice(text, middleStart, middleStart + middleSize);
      intro + TruncationMarker + middle + TruncationMarker + conclusion
  }

  /** Over budget, the result is the first `maxTokens` characters, a marker,
      the centred `2 * maxTokens` characters, a marker and the last
      `maxTokens` characters; with no budget at all, the two markers
      followed by the whole text. */
  lemma TruncationShape(text: string, maxTokens: nat)
    requires |text| > 4 * maxTokens
    ensures maxTokens > 0 ==>
      var m := maxTokens;
      var start := (|text| - 2 * m) / 2;
      && start + 2 * m <= |text|
      && TruncateContext(text, m)
         == text[..m] + TruncationMarker + text[start..start + 2 * m] + TruncationMarker + text[|text| - m..]
    ensures maxTokens == 0 ==> TruncateContext(text, maxTokens) == TruncationMarker + TruncationMarker + text
  {
    var m := maxTokens;
    assert (m * 4) / 4 == m;
    var start := (|text| - 2 * m) / 2;
    SliceInRange(text, 0, m);
    SliceInRange(text, start, start + 2 * m);
    if m > 0 {
      SliceLast(text, m);
    } else {
      assert Slice(text, -0, |text|) == text[0..|text|] == text;
    }
  }

  /** A truncated text has exactly the budget plus the two markers in length;
      so a text only slightly over the budget comes back longer. */
  lemma TruncatedLength(text: string, maxTokens: nat)
    requires maxTokens > 0 && |text| > 4 * maxTokens
    ensures |TruncateContext(text, maxTokens)| == 4 * maxTokens + 2 * |TruncationMarker|
    ensures |TruncationMarker| == 25
    ensures |text| < 4 * maxTokens + 50 ==> |TruncateContext(text, maxTokens)| > |text|
  {
    TruncationShape(text, maxTokens);
    var m := maxTokens;
    var start := (|text| - 2 * m) / 2;
    assert |text[..m] + TruncationMarker + text[start..start + 2 * m] + TruncationMarker + text[|text| - m..]|
      == m + 25 + 2 * m + 25 + m;
  }

  /** The kept parts: the text's first and last `maxTokens` characters at the
      two ends, and a middle part centred in the text, no more than one
      character off centre. */
  lemma TruncationKeepsEndsAndCentre(text: string, maxTokens: nat)
    requires maxTokens > 0 && |text| > 4 * maxTokens
    ensures var r := TruncateContext(text, maxTokens);
      StartsWith(r, text[..maxTokens]) && EndsWith(r, text[|text| - maxTokens..])
    ensures var m := maxTokens;
      var start := (|text| - 2 * m) / 2;
      var after := |text| - (start + 2 * m);
      (after == start || after == start + 1)
      && TruncateContext(text, m)[m + 25..3 * m + 25] == text[start..start + 2 * m]
  {
    var m := maxTokens;
    var start := (|text| - 2 * m) / 2;
    Centred(|text|, 2 * m);
    TruncationShape(text, m);
    assert |TruncationMarker| == 25;
    FiveParts(text[..m], TruncationMarker, text[start..start + 2 * m], TruncationMarker, text[|text| - m..]);
  }

  /** Halving what is left over leaves at most one more after the middle
      than before it. */
  lemma Centred(n: int, size: int)
    ensures var start := (n - size) / 2;
      var after := n - (start + size);
      after == start || after == start + 1
  { }

  /** The outer parts of a five-part concatenation start and end it, and the
      middle part sits right after the first two. */
  lemma FiveParts(a: string, x: string, mid: string, y: string, c: string)
    ensures var r := a + x + mid + y + c;
      && StartsWith(r, a) && EndsWith(r, c)
      && r[|a| + |x|..|a| + |x| + |mid|] == mid
  {
    var r := a + x + mid + y + c;
    assert r == a + (x + mid + y + c);
    assert r == (a + x + mid + y) + c;
    assert r == (a + x) + mid + (y + c);
  }

  // ===========================================================================
  // TokenOptimizer.optimize_prompt
  // ===========================================================================

  /** The verbose phrases and their replacements, in the order they are applied. */
  const Replacements: seq<(string, string)> :=
    [("in order to", "to"),
     ("for the purpose of", "to"),
     ("a large number of", "many"),
     ("a significant amount of", "much"),
     ("at this point in time", "now"),
     ("due to the fact that", "because"),
     ("in the event that", "if")]

  predicate NonEmptyPatterns(rs: seq<(string, string)>) {
    forall i :: 0 <= i < |rs| ==> |rs[i].0| > 0
  }

  predicate Shortening(rs: seq<(string, string)>) {
    forall i :: 0 <= i < |rs| ==> |rs[i].1| <= |rs[i].0|
  }

  /** Each replacement applied in turn to the result of the previous one. */
  function ReplaceEach(s: string, rs: seq<(string, string)>): (r: string)
    requires NonEmptyPatterns(rs)
    ensures Shortening(rs) ==> |r| <= |s|
    ensures (forall i :: 0 <= i < |rs| ==> !Contains(s, rs[i].0)) ==> r == s
    decreases |rs|
  {
    if |rs| == 0 then s
    else ReplaceEach(Replace(s, rs[0].0, rs[0].1), rs[1..])
  }

  /** Whitespace normalised, then the phrases replaced. */
  function OptimizePrompt(prompt: string): (r: string)
    ensures |r| <= |Normalize(prompt)|
    ensures (forall i :: 0 <= i < |Replacements| ==> !Contains(Normalize(prompt), Replacements[i].0))
            ==> r == Normalize(prompt) && WellSpaced(r) && Words(r) == Words(prompt)
  {
    NormalizeShape(prompt);
    ReplaceEach(Normalize(prompt), Replacements)
  }

  /** The phrase lengths: 11 for the first, at least 17 for the others. */
  lemma PhraseLengths()
    ensures |Replacements| == 7 && NonEmptyPatterns(Replacements) && Shortening(Replacements)
    ensures |Replacements[0].0| == 11
    ensures forall i :: 1 <= i < |Replacements| ==> |Replacements[i].0| >= 17
  {
    var rs := Replacements;
    assert |rs[0].0| == 11 && |rs[1].0| == 18 && |rs[2].0| == 17 && |rs[3].0| == 23;
    assert |rs[4].0| == 21 && |rs[5].0| == 20 && |rs[6].0| == 17;
  }

  /** A text shorter than every pattern is left as it is. */
  lemma {:induction false} ShortTextUnreplaced(s: string, rs: seq<(string, string)>)
    requires NonEmptyPatterns(rs)
    requires forall i :: 0 <= i < |rs| ==> |s| < |rs[i].0|
    ensures ReplaceEach(s, rs) == s
    decreases |rs|
  {
    if |rs| > 0 {
      ShortNotContained(s, rs[0].0);
      assert forall i :: 0 <= i < |rs| - 1 ==> rs[1..][i] == rs[i + 1];
      ShortTextUnreplaced(s, rs[1..]);
    }
  }

  /** In the longer example the first phrase starts only at the second
      "in": the first "in order " is kept, the phrase after it replaced. */
  lemma FirstPhraseKeepsPrefix()
    ensures Replace("in order " + ("in order to" + " to"), "in order to", "to")
      == "in order " + Replace("in order to" + " to", "in order to", "to")
  {
    var x, pat := "in order ", "in order to";
    var b := pat + " to";
    forall k | 0 <= k < |x| ensures !StartsWith((x + b)[k..], pat) {
      if k == 0 {
        assert (x + b)[9] != pat[9];
      } else {
        assert (x + b)[k] != pat[0];
      }
    }
    ReplaceSkip(x, b, pat, "to");
  }

  /** A leading phrase is replaced and the short rest kept. */
  lemma FirstPhraseAtFront()
    ensures Replace("in order to" + " to", "in order to", "to") == "to" + " to"
  {
    ReplaceAtFront("in order to", " to", "to");
    ShortNotContained(" to", "in order to");
  }

  /** Words joined by single spaces are already normalised, so optimising
      them applies the first phrase and then the rest. */
  lemma OptimizeJoined(ws: seq<string>)
    requires forall i :: 0 <= i < |ws| ==> IsToken(ws[i])
    ensures OptimizePrompt(Join(" ", ws))
      == ReplaceEach(Replace(Join(" ", ws), "in order to", "to"), Replacements[1..])
  {
    WordsOfJoin(ws);
    assert Replacements[0] == ("in order to", "to");
  }

  /** The example prompts as concatenations. */
  lemma LongerExampleText()
    ensures Join(" ", ["in", "order", "in", "order", "to", "to"]) == "in order " + ("in order to" + " to")
  { }

  lemma ShorterExampleText()
    ensures Join(" ", ["in", "order", "to", "to"]) == "in order to" + " to"
    ensures Join(" ", ["in", "order", "to", "to"]) == "in order " + ("to" + " to")
  { }

  lemma ResultText()
    ensures Join(" ", ["to", "to"]) == "to" + " to"
  { }

  /** The phrase replacement in "in order in order to to". */
  lemma FirstPhraseInLongerExample()
    ensures Replace(Join(" ", ["in", "order", "in", "order", "to", "to"]), "in order to", "to")
      == Join(" ", ["in", "order", "to", "to"])
  {
    LongerExampleText();
    FirstPhraseKeepsPrefix();
    FirstPhraseAtFront();
    ShorterExampleText();
  }

  /** The phrase replacement in "in order to to". */
  lemma FirstPhraseInShorterExample()
    ensures Replace(Join(" ", ["in", "order", "to", "to"]), "in order to", "to") == Join(" ", ["to", "to"])
  {
    ShorterExampleText();
    FirstPhraseAtFront();
    ResultText();
  }

  /** The phrases after the first are all at least 17 characters long. */
  lemma OtherPhraseLengths()
    ensures var rest := Replacements[1..];
      NonEmptyPatterns(rest) && forall i :: 0 <= i < |rest| ==> |rest[i].0| >= 17
  {
    PhraseLengths();
    var rest := Replacements[1..];
    assert forall i :: 0 <= i < |rest| ==> rest[i] == Replacements[i + 1];
  }

  /** Texts of at most 16 characters contain none of the other phrases. */
  lemma OtherPhrasesAbsent(s: string, rest: seq<(string, string)>)
    requires |s| <= 16 && rest == Replacements[1..]
    ensures NonEmptyPatterns(rest) && ReplaceEach(s, rest) == s
  {
    OtherPhraseLengths();
    assert forall i :: 0 <= i < |rest| ==> |s| < |rest[i].0|;
    ShortTextUnreplaced(s, rest);
  }

  /** The first pass over "in order in order to to" gives "in order to to". */
  lemma OptimizeOnce()
    ensures OptimizePrompt(Join(" ", ["in", "order", "in", "order", "to", "to"]))
      == Join(" ", ["in", "order", "to", "to"])
  {
    OptimizeJoined(["in", "order", "in", "order", "to", "to"]);
    FirstPhraseInLongerExample();
    assert |Join(" ", ["in", "order", "to", "to"])| == 14;
    OtherPhrasesAbsent(Join(" ", ["in", "order", "to", "to"]), Replacements[1..]);
  }

  /** The second pass over "in order to to" gives "to to". */
  lemma OptimizeTwice()
    ensures OptimizePrompt(Join(" ", ["in", "order", "to", "to"])) == Join(" ", ["to", "to"])
  {
    OptimizeJoined(["in", "order", "to", "to"]);
    FirstPhraseInShorterExample();
    assert |Join(" ", ["to", "to"])| == 5;
    OtherPhrasesAbsent(Join(" ", ["to", "to"]), Replacements[1..]);
  }

  /** Optimising twice is not optimising once: replacing the phrase in
      "in order in order to to" creates a new occurrence of it, which only a
      second pass replaces. */
  lemma OptimizeNotIdempotent()
    ensures var p := Join(" ", ["in", "order", "in", "order", "to", "to"]);
      OptimizePrompt(OptimizePrompt(p)) != OptimizePrompt(p)
  {
    OptimizeOnce();
    OptimizeTwice();
    assert |Join(" ", ["to", "to"])| == 5;
    assert |Join(" ", ["in", "order", "to", "to"])| == 14;
  }

  // ===========================================================================
  // DynamicComplexityRouter
  // ===========================================================================

  datatype Complexity = Low | Medium | High

  const HighKeywords: seq<string> :=
    ["report", "analyze", "synthesize", "evaluate", "compare", "critique", "recommend",
     "develop", "create", "design", "summarize", "comprehensive", "detailed", "nuanced"]

  const MediumKeywords: seq<string> :=
    ["explain", "describe", "outline", "list", "identify", "find", "filter", "search",
     "calculate", "process"]

  const LowKeywords: seq<string> :=
    ["check", "verify", "confirm", "is", "simple", "basic", "quick", "brief", "yes/no"]

  /** The positions of the keywords that occur in the query. */
  function MatchIndices(keywords: seq<string>, query: string): set<nat> {
    set i: nat | i < |keywords| && Contains(query, Lower(keywords[i]))
  }

  /** How many of the keywords occur in the query, each list entry counted once. */
  function Score(keywords: seq<string>, query: string): (n: nat)
    ensures n == |MatchIndices(keywords, query)|
    ensures n <= |keywords|
    ensures n == 0 <==> forall i :: 0 <= i < |keywords| ==> !Contains(query, Lower(keywords[i]))
  {
    if |keywords| == 0 then
      assert MatchIndices(keywords, query) == {};
      0
    else
      MatchIndicesCons(keywords, query);
      (if Contains(query, Lower(keywords[0])) then 1 else 0) + Score(keywords[1..], query)
  }

  /** The matches of a list are its first entry's, if it matches, and the
      matches of the rest moved up one place. */
  lemma MatchIndicesCons(keywords: seq<string>, query: string)
    requires |keywords| > 0
    ensures |MatchIndices(keywords, query)|
      == (if Contains(query, Lower(keywords[0])) then 1 else 0) + |MatchIndices(keywords[1..], query)|
  {
    var all := MatchIndices(keywords, query);
    var rest := MatchIndices(keywords[1..], query);
    var moved := Shift(rest);
    ShiftSize(rest);
    assert forall i :: i in all && i != 0 ==> i - 1 in rest;
    assert all - {0} == moved;
    if Contains(query, Lower(keywords[0])) {
      assert all == moved + {0};
    } else {
      assert all == moved;
    }
  }

  /** Every element moved up one place. */
  function Shift(s: set<nat>): set<nat> {
    set i | i in s :: i + 1
  }

  lemma {:induction false} ShiftSize(s: set<nat>)
    ensures |Shift(s)| == |s|
    decreases |s|
  {
    if s != {} {
      var x :| x in s;
      var smaller := s - {x};
      ShiftSize(smaller);
      forall y | y in Shift(s) ensures y in Shift(smaller) + {x + 1} {
        var i :| i in s && y == i + 1;
        if i != x {
          assert i in smaller;
        }
      }
      forall y | y in Shift(smaller) ensures y in Shift(s) {
        var i :| i in smaller && y == i + 1;
      }
      assert Shift(s) == Shift(smaller) + {x + 1};
      assert x + 1 !in Shift(smaller);
    }
  }

  /** A keyword's score depends only on which keywords occur, not on how often. */
  lemma {:induction false} ScoreByPresence(keywords: seq<string>, q1: string, q2: string)
    requires forall i :: 0 <= i < |keywords| ==>
      (Contains(q1, Lower(keywords[i])) <==> Contains(q2, Lower(keywords[i])))
    ensures Score(keywords, q1) == Score(keywords, q2)
  {
    if |keywords| > 0 {
      assert forall i :: 0 <= i < |keywords| - 1 ==> keywords[1..][i] == keywords[i + 1];
      ScoreByPresence(keywords[1..], q1, q2);
    }
  }

  datatype Scores = Scores(high: nat, medium: nat, low: nat)

  function ScoresOf(query: string): (s: Scores)
    ensures s.high <= 14 && s.medium <= 10 && s.low <= 9
  {
    var q := Lower(query);
    Scores(Score(HighKeywords, q), Score(MediumKeywords, q), Score(LowKeywords, q))
  }

  /** Ties go to the cheaper level. */
  function Decide(s: Scores): Complexity {
    if s.high > s.medium then High
    else if s.medium > s.low then Medium
    else Low
  }

  function AssessComplexity(query: string): (c: Complexity)
    ensures c == High <==> ScoresOf(query).high > ScoresOf(query).medium
    ensures ScoresOf(query) == Scores(0, 0, 0) ==> c == Low
  {
    Decide(ScoresOf(query))
  }

  /** The decision as a whole: High beats Medium only strictly, Medium beats
      Low only strictly, and Low is the fall-back. */
  lemma DecisionOrder(s: Scores)
    ensures Decide(s) == High <==> s.high > s.medium
    ensures Decide(s) == Medium <==> s.high <= s.medium && s.medium > s.low
    ensures Decide(s) == Low <==> s.high <= s.medium && s.medium <= s.low
  {
  }

  /** Keywords match as substrings: every query that mentions the medium
      keyword "list" also scores the low keyword "is", which occurs inside
      it. So a query whose only keyword is "list" is routed as low. */
  lemma ListAlsoScoresIs(query: string)
    requires Contains(Lower(query), "list")
    ensures ScoresOf(query).medium >= 1 && ScoresOf(query).low >= 1
    ensures ScoresOf(query).high == 0 && ScoresOf(query).medium == 1 ==> AssessComplexity(query) == Low
  {
    ListContainsIs(Lower(query));
    ListScores(Lower(query));
    IsScores(Lower(query));
  }

  lemma ListContainsIs(q: string)
    requires Contains(q, "list")
    ensures Contains(q, "is")
  {
    assert "list" == "l" + "is" + "t";
    ContainsMiddle("l", "is", "t");
    ContainsTrans("is", "list", q);
  }

  lemma ListScores(q: string)
    requires Contains(q, "list")
    ensures Score(MediumKeywords, q) >= 1
  {
    assert Lower("list") == "list";
    assert MediumKeywords[3] == "list";
    KeywordScores(MediumKeywords, q, 3);
  }

  lemma IsScores(q: string)
    requires Contains(q, "is")
    ensures Score(LowKeywords, q) >= 1
  {
    assert Lower("is") == "is";
    assert LowKeywords[3] == "is";
    KeywordScores(LowKeywords, q, 3);
  }

  /** A keyword that occurs gives its level a positive score. */
  lemma KeywordScores(keywords: seq<string>, q: string, i: nat)
    requires i < |keywords| && Contains(q, Lower(keywords[i]))
    ensures Score(keywords, q) >= 1
  {
  }

  /** `get_model_for_task`: the report writer only for high complexity. */
  function RoleForTask(query: string): (role: Role)
    ensures role == ReportWriter <==> AssessComplexity(query) == High
  {
    if AssessComplexity(query) == High then ReportWriter else Default
  }

  function GetModelForTask(query: string): (config: ModelConfig)
    ensures config == DeepseekR1 <==> AssessComplexity(query) == High
    ensures config == Llama33 <==> AssessComplexity(query) != High
  {
    RolesDistinct();
    ConfigOf(RoleForTask(query))
  }

  // ===========================================================================
  // EnhancedGroqChat._optimize_messages and create_optimized_chat
  // ===========================================================================

  /** A chat message: a human prompt, a system prompt, or any other kind
      (assistant, tool, ...) with its kind's name. */
  datatype Message =
    | HumanMessage(content: string)
    | SystemMessage(content: string)
    | OtherMessage(kind: string, content: string)

  /** The rewrite of one message. */
  function OptimizeMessage(m: Message): (r: Message)
    ensures r.HumanMessage? <==> m.HumanMessage?
    ensures r.SystemMessage? <==> m.SystemMessage?
    ensures m.HumanMessage? ==> r.content == OptimizePrompt(m.content)
    ensures m.SystemMessage? && |m.content| <= 8000 ==> r == m
    ensures m.OtherMessage? ==> r == m
  {
    match m
    case HumanMessage(c) => HumanMessage(OptimizePrompt(c))
    case SystemMessage(c) => if |c| > 1000 then SystemMessage(TruncateContext(c, 2000)) else m
    case OtherMessage(_, _) => m
  }

  /** A long system prompt is cut to the 8000-character budget plus markers. */
  lemma LongSystemPromptTruncated(c: string)
    requires |c| > 8000
    ensures OptimizeMessage(SystemMessage(c)) == SystemMessage(TruncateContext(c, 2000))
    ensures |OptimizeMessage(SystemMessage(c)).content| == 8050
  {
    TruncatedLength(c, 2000);
  }

  /** `_optimize_messages`: the messages rewritten one by one, in order. */
  method OptimizeMessages(messages: seq<Message>) returns (out: seq<Message>)
    ensures |out| == |messages|
    ensures forall i :: 0 <= i < |messages| ==> out[i] == OptimizeMessage(messages[i])
  {
    out := [];
    var i := 0;
    while i < |messages|
      invariant 0 <= i <= |messages|
      invariant |out| == i
      invariant forall j :: 0 <= j < i ==> out[j] == OptimizeMessage(messages[j])
    {
      var m := OptimizeMessage(messages[i]);
      assert forall j :: 0 <= j < i ==> (out + [m])[j] == out[j];
      out := out + [m];
      i := i + 1;
    }
  }

  /** What `create_optimized_chat` builds. */
  datatype ChatSettings = ChatSettings(model: string, temperature: real, optimizeTokens: bool)

  /** A non-empty query replaces the given configuration by the routed one. */
  function CreateOptimizedChat(config: ModelConfig, query: Option<string>, optimizeTokens: bool)
    : (chat: ChatSettings)
    ensures chat.optimizeTokens == optimizeTokens
    ensures (query.None? || |query.value| == 0) ==>
      chat.model == config.name && chat.temperature == config.temperature
    ensures query.Some? && |query.value| > 0 ==>
      var routed := ConfigOf(RoleForTask(query.value));
      chat.model == routed.name && chat.temperature == routed.temperature
  {
    var chosen := if query.Some? && |query.value| > 0 then GetModelForTask(query.value) else config;
    ChatSettings(chosen.name, chosen.temperature, optimizeTokens)
  }
}
