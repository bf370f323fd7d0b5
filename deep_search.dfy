/**
 * The deterministic parts of the deep-research graph: cleaning the model's fenced JSON
 * replies with the fallbacks of `generate_query` and `reflect_on_summary`, the loop counter
 * of `web_research`, the `<think>` removal loop of `summarize_sources`, the final summary
 * and the loop-count router. The model, the JSON decoder and the web searches are
 * parameters.
 */
module DeepSearch {
  import opened Common
  import opened PyStrings

  const Fence: string := "```"

  /**
   * The cleanup before `json.loads`: strip, and when the text is fenced drop its first and its
   * last line, then a first line starting with "json". `None` is the `IndexError` of
   * `split('\n', 1)[1]` on a text without a newline.
   */
  function StripFence(raw: string): (r: Option<string>)
    ensures !(StartsWith(Trim(raw), Fence) && EndsWith(Trim(raw), Fence)) ==> r == Some(Trim(raw))
    ensures StartsWith(Trim(raw), Fence) && EndsWith(Trim(raw), Fence) && !Contains(Trim(raw), "\n") ==> r.None?
  {
    var content := Trim(raw);
    if StartsWith(content, Fence) && EndsWith(content, Fence) then
      match AfterFirst(content, "\n")
      case None => None
      case Some(rest) =>
        var inner := BeforeLast(rest, '\n');
        if StartsWith(inner, "json") then AfterFirst(inner, "\n") else Some(inner)
    else Some(content)
  }

  /** A text between two fences starts and ends with one. */
  lemma Fenced(mid: string)
    ensures StartsWith(Fence + mid + Fence, Fence) && EndsWith(Fence + mid + Fence, Fence)
    ensures Trim(Fence + mid + Fence) == Fence + mid + Fence
  {
    var content := Fence + mid + Fence;
    assert content[..|Fence|] == Fence;
    assert content[|content| - |Fence|..] == Fence;
    assert content[0] == '`' && content[|content| - 1] == '`';
    StripClean(content, Whitespace);
  }

  /** Once the two cuts are known, `StripFence` keeps what lies between them. */
  lemma UnwrapBetween(content: string, rest: string, inner: string)
    requires StartsWith(content, Fence) && EndsWith(content, Fence) && Trim(content) == content
    requires AfterFirst(content, "\n") == Some(rest) && BeforeLast(rest, '\n') == inner
    requires !StartsWith(inner, "json")
    ensures StripFence(content) == Some(inner)
  {
  }

  /**
   * A reply whose opening fence line carries any tag (none, or a language such as "json")
   * gives back exactly the lines between the fence lines.
   */
  lemma TaggedFenceUnwraps(tag: string, body: string)
    requires '\n' !in tag && !StartsWith(body, "json")
    ensures StripFence(Fence + tag + "\n" + body + "\n" + Fence) == Some(body)
  {
    var head := Fence + tag;
    var rest := body + "\n" + Fence;
    var content := Fence + tag + "\n" + body + "\n" + Fence;
    assert content == Fence + (tag + "\n" + body + "\n") + Fence;
    Fenced(tag + "\n" + body + "\n");
    assert AfterFirst(content, "\n") == Some(rest) by {
      assert content == head + ['\n'] + rest;
      assert '\n' !in head by { assert head == Fence + tag; }
      AfterFirstCharAt(head, '\n', rest);
    }
    assert BeforeLast(rest, '\n') == body by {
      assert rest == body + ['\n'] + Fence;
      BeforeLastCharAt(body, '\n', Fence);
    }
    UnwrapBetween(content, rest, body);
  }

  /** A reply fenced as ```` ```json ```` on its own line gives back exactly the lines in between. */
  lemma JsonFenceUnwraps(body: string)
    requires !StartsWith(body, "json")
    ensures StripFence(Fence + "json\n" + body + "\n" + Fence) == Some(body)
  {
    TaggedFenceUnwraps("json", body);
    assert Fence + "json" + "\n" == Fence + "json\n";
  }

  /** A reply fenced by bare ```` ``` ```` lines, with no tag, gives back exactly the lines in between. */
  lemma PlainFenceUnwraps(body: string)
    requires !StartsWith(body, "json")
    ensures StripFence(Fence + "\n" + body + "\n" + Fence) == Some(body)
  {
    TaggedFenceUnwraps("", body);
    assert Fence + "" == Fence;
  }

  /** What `json.loads` gave, read as a dict of string values; `None` when it fails or is not a dict. */
  type Decoder = string -> Option<map<string, string>>

  /** `generate_query`: the decoded `query`, or the research topic on any failure. */
  function GenerateQuery(topic: string, reply: string, decode: Decoder): (q: string)
    ensures StripFence(reply).None? ==> q == topic
    ensures StripFence(reply).Some? && decode(StripFence(reply).value).None? ==> q == topic
    ensures StripFence(reply).Some? && decode(StripFence(reply).value).Some? ==>
              var m := decode(StripFence(reply).value).value;
              q == if "query" in m then m["query"] else topic
  {
    match StripFence(reply)
    case None => topic
    case Some(content) =>
      match decode(content)
      case None => topic
      case Some(m) => if "query" in m then m["query"] else topic
  }

  /** A fenced reply without any newline cannot be unwrapped, so the topic itself is searched. */
  lemma OneLineFenceFallsBack(topic: string, body: string, decode: Decoder)
    requires '\n' !in body
    ensures GenerateQuery(topic, Fence + body + Fence, decode) == topic
  {
    var content := Fence + body + Fence;
    Fenced(body);
    ContainsChar(content, '\n');
    assert '\n' !in content;
  }

  /** Unlike the reflection fallback, an empty `query` is searched as it is. */
  lemma EmptyQueryIsKept(topic: string, reply: string, decode: Decoder)
    requires StripFence(reply).Some? && decode(StripFence(reply).value) == Some(map["query" := ""])
    ensures GenerateQuery(topic, reply, decode) == ""
  {
  }

  const TellMeMore: string := "Tell me more about "

  /** `reflect_on_summary`: a truthy `follow_up_query`, or "Tell me more about " + topic. */
  function ReflectOnSummary(topic: string, reply: string, decode: Decoder): (q: string)
    ensures StripFence(reply).None? ==> q == TellMeMore + topic
    ensures StripFence(reply).Some? && decode(StripFence(reply).value).None? ==> q == TellMeMore + topic
    ensures StripFence(reply).Some? && decode(StripFence(reply).value).Some? ==>
              var m := decode(StripFence(reply).value).value;
              q == if "follow_up_query" in m && m["follow_up_query"] != "" then m["follow_up_query"] else TellMeMore + topic
  {
    match StripFence(reply)
    case None => TellMeMore + topic
    case Some(content) =>
      match decode(content)
      case None => TellMeMore + topic
      case Some(m) =>
        if "follow_up_query" in m && m["follow_up_query"] != "" then m["follow_up_query"] else TellMeMore + topic
  }

  /** The follow-up query is never empty. */
  lemma FollowUpNeverEmpty(topic: string, reply: string, decode: Decoder)
    ensures ReflectOnSummary(topic, reply, decode) != ""
  {
    assert |TellMeMore + topic| >= |TellMeMore|;
  }

  // ---------------------------------------------------------------------------
  // web_research and route_research

  /** `configurable.search_api`: a plain string, or a `SearchAPI` member read through `.value`. */
  datatype SearchApi = Named(name: string) | Member(value: string)

  /** What a search contributes: `format_sources(results)` and the deduplicated text. */
  datatype Search = Search(sources: string, text: string)

  /** The state update `web_research` returns. */
  datatype ResearchUpdate = ResearchUpdate(sourcesGathered: seq<string>, researchLoopCount: int, webResearchResults: seq<string>)

  function ApiName(api: SearchApi): string
  {
    match api
    case Named(n) => n
    case Member(v) => v
  }

  /**
   * `web_research` after loop `count`: Tavily, or Perplexity (which is told the loop count);
   * any other API raises (`None`).
   */
  function WebResearch(count: int, api: SearchApi, tavily: Search, perplexity: int -> Search): (r: Option<ResearchUpdate>)
    ensures r.None? <==> ApiName(api) != "tavily" && ApiName(api) != "perplexity"
    ensures r.Some? ==> r.value.researchLoopCount == count + 1
    ensures ApiName(api) == "tavily" ==> r == Some(ResearchUpdate([tavily.sources], count + 1, [tavily.text]))
    ensures ApiName(api) == "perplexity" ==>
              r == Some(ResearchUpdate([perplexity(count).sources], count + 1, [perplexity(count).text]))
  {
    var name := ApiName(api);
    if name == "tavily" then Some(ResearchUpdate([tavily.sources], count + 1, [tavily.text]))
    else if name == "perplexity" then
      var found := perplexity(count);
      Some(ResearchUpdate([found.sources], count + 1, [found.text]))
    else None
  }

  datatype ResearchNext = WebResearchNode | FinalizeSummaryNode

  /** `route_research`: another search while the count is at most the maximum. */
  function RouteResearch(count: int, maxLoops: int): (r: ResearchNext)
    ensures r == WebResearchNode <==> count <= maxLoops
  {
    if count <= maxLoops then WebResearchNode else FinalizeSummaryNode
  }

  /**
   * How many times `web_research` runs when it is entered after loop `count`: once, and again
   * each time the router, reading the count it returned, sends the run back to it.
   */
  function SearchesFrom(count: int, maxLoops: int, api: SearchApi, tavily: Search, perplexity: int -> Search): nat
    requires ApiName(api) == "tavily" || ApiName(api) == "perplexity"
    decreases if count < maxLoops then maxLoops - count else 0
  {
    var next := WebResearch(count, api, tavily, perplexity).value.researchLoopCount;
    1 + (if RouteResearch(next, maxLoops) == WebResearchNode then SearchesFrom(next, maxLoops, api, tavily, perplexity) else 0)
  }

  lemma {:induction false} SearchesFromCount(count: int, maxLoops: int, api: SearchApi, tavily: Search, perplexity: int -> Search)
    requires ApiName(api) == "tavily" || ApiName(api) == "perplexity"
    ensures SearchesFrom(count, maxLoops, api, tavily, perplexity) == if count <= maxLoops then maxLoops - count + 1 else 1
    decreases if count < maxLoops then maxLoops - count else 0
  {
    if count + 1 <= maxLoops {
      SearchesFromCount(count + 1, maxLoops, api, tavily, perplexity);
    }
  }

  /** From a fresh state (count 0), a non-negative maximum gives `max + 1` searches, not `max`. */
  lemma SearchesOneMoreThanMax(maxLoops: int, api: SearchApi, tavily: Search, perplexity: int -> Search)
    requires ApiName(api) == "tavily" || ApiName(api) == "perplexity"
    ensures maxLoops >= 0 ==> SearchesFrom(0, maxLoops, api, tavily, perplexity) == maxLoops + 1
    ensures maxLoops < 0 ==> SearchesFrom(0, maxLoops, api, tavily, perplexity) == 1
  {
    SearchesFromCount(0, maxLoops, api, tavily, perplexity);
  }

  // ---------------------------------------------------------------------------
  // The <think> removal loop of summarize_sources

  const Open: string := "<think>"
  const Close: string := "</think>"

  /** The loop condition: both tags occur. */
  predicate InLoop(s: string)
  {
    Contains(s, Open) && Contains(s, Close)
  }

  /** One pass: cut from the first "<think>" to just past the first "</think>". */
  function ThinkStep(s: string): (r: string)
    requires InLoop(s)
    ensures Find(s, Open) < Find(s, Close) ==> |r| < |s|
  {
    var start := Find(s, Open);
    var end := Find(s, Close) + |Close|;
    s[..start] + s[end..]
  }

  /** The text after `n` passes, or after fewer when the loop condition fails first. */
  function ThinkIterate(s: string, n: nat): string
  {
    if n == 0 then s
    else
      var prev := ThinkIterate(s, n - 1);
      if InLoop(prev) then ThinkStep(prev) else prev
  }

  /** Both tags occur, and the first "</think>" comes before the first "<think>". */
  predicate CloseFirst(s: string)
  {
    InLoop(s) && Find(s, Close) < Find(s, Open)
  }

  /** A "</think>" at c and a later "<think>" at o do not overlap. */
  lemma CloseThenOpenApart(s: string, c: nat, o: nat)
    requires IsAt(s, Close, c) && IsAt(s, Open, o) && c < o
    ensures c + |Close| <= o
  {
    assert s[o] == '<' by { assert s[o] == s[o..o + 7][0]; }
    assert forall k :: c < k < c + 8 && k < |s| ==> s[k] != '<' by {
      forall k | c < k < c + 8 && k < |s| ensures s[k] != '<' {
        assert s[k] == s[c..c + 8][k - c];
      }
    }
  }

  /** Cutting from o back to c + 8 keeps every window that ends by o. */
  lemma CutKeepsPrefix(s: string, c: nat, o: nat, j: nat, n: nat)
    requires c + 8 <= o <= |s| && j + n <= o
    ensures (s[..o] + s[c + 8..])[j..j + n] == s[j..j + n]
  {
    var t := s[..o] + s[c + 8..];
    assert t[..o] == s[..o];
  }

  /** The overlapping cut keeps the first "</think>" where it was. */
  lemma CutKeepsClose(s: string, c: nat, o: nat)
    requires c + 8 <= o <= |s| && IsAt(s, Close, c)
    requires forall j: nat :: j < c ==> !IsAt(s, Close, j)
    ensures Find(s[..o] + s[c + 8..], Close) == c
  {
    var t := s[..o] + s[c + 8..];
    CutKeepsPrefix(s, c, o, c, 8);
    assert |t| == o + (|s| - c - 8);
    forall j: nat | j < c ensures !IsAt(t, Close, j) {
      CutKeepsPrefix(s, c, o, j, 8);
      assert !IsAt(s, Close, j);
    }
    FindIs(t, Close, c);
  }

  /** The overlapping cut keeps a "<think>", and none at or before c. */
  lemma CutKeepsOpen(s: string, c: nat, o: nat)
    requires c + 8 <= o && IsAt(s, Open, o)
    requires forall j: nat :: j < o ==> !IsAt(s, Open, j)
    ensures Contains(s[..o] + s[c + 8..], Open) && Find(s[..o] + s[c + 8..], Open) > c
  {
    var t := s[..o] + s[c + 8..];
    var p := 2 * o - c - 8;
    assert IsAt(t, Open, p) by {
      assert t[p..p + 7] == s[o..o + 7];
    }
    ContainsIff(t, Open);
    assert |t| == o + (|s| - c - 8);
    forall j: nat | j <= c ensures !IsAt(t, Open, j) {
      CutKeepsPrefix(s, c, o, j, 7);
      assert !IsAt(s, Open, j);
    }
  }

  /** In that case the cut ends past its start: the slices overlap and the pass keeps the first "</think>". */
  lemma CloseFirstStays(s: string)
    requires CloseFirst(s)
    ensures CloseFirst(ThinkStep(s))
  {
    var o, c := Find(s, Open), Find(s, Close);
    CloseThenOpenApart(s, c, o);
    assert ThinkStep(s) == s[..o] + s[c + 8..];
    CutKeepsClose(s, c, o);
    CutKeepsOpen(s, c, o);
  }

  /** Nor does the text shrink: it grows by the gap between the two tags, and stays put when they touch. */
  lemma CloseFirstGrows(s: string)
    requires CloseFirst(s)
    ensures |ThinkStep(s)| == |s| + Find(s, Open) - Find(s, Close) - |Close| >= |s|
  {
    CloseThenOpenApart(s, Find(s, Close), Find(s, Open));
  }

  /** Once the first "</think>" precedes the first "<think>", no number of passes ends the loop. */
  lemma {:induction false} CloseFirstNeverEnds(s: string, n: nat)
    requires CloseFirst(s)
    ensures CloseFirst(ThinkIterate(s, n))
    decreases n
  {
    if n > 0 {
      CloseFirstNeverEnds(s, n - 1);
      CloseFirstStays(ThinkIterate(s, n - 1));
    }
  }

  /** An occurrence of `pat` at j puts each of its characters in place. */
  lemma AtIndex(s: string, pat: string, j: nat, k: nat)
    requires k < |pat|
    ensures IsAt(s, pat, j) ==> s[j + k] == pat[k]
  {
    if IsAt(s, pat, j) {
      assert s[j..j + |pat|][k] == s[j + k];
    }
  }

  /** Both tags begin with '<', so neither starts at any other character. */
  lemma TagNeedsAngle(s: string, j: nat)
    requires j < |s| && s[j] != '<'
    ensures !IsAt(s, Open, j) && !IsAt(s, Close, j)
  {
    AtIndex(s, Open, j, 0);
    AtIndex(s, Close, j, 0);
  }

  /** A text with no '<' holds neither tag, so the loop condition fails. */
  lemma NoAngleNoLoop(t: string)
    requires '<' !in t
    ensures !InLoop(t)
  {
    if Contains(t, Open) {
      TagNeedsAngle(t, Find(t, Open));
    }
  }

  /** With a single well-formed block and no other '<' before its end, one pass cuts exactly that block. */
  lemma ThinkStepRemovesBlock(pre: string, mid: string, post: string)
    requires '<' !in pre && '<' !in mid
    ensures var s := pre + Open + mid + Close + post;
            InLoop(s) && Find(s, Open) < Find(s, Close) && ThinkStep(s) == pre + post
  {
    var s := pre + Open + mid + Close + post;
    var o := |pre|;
    var c := |pre| + |Open| + |mid|;
    assert IsAt(s, Open, o) by { assert s[o..o + 7] == Open; }
    assert IsAt(s, Close, c) by { assert s[c..c + 8] == Close; }
    forall j: nat | j < o ensures !IsAt(s, Open, j) {
      assert s[j] == pre[j];
      TagNeedsAngle(s, j);
    }
    FindIs(s, Open, o);
    forall j: nat | j < c ensures !IsAt(s, Close, j) {
      if j < o {
        assert s[j] == pre[j];
        TagNeedsAngle(s, j);
      } else if j == o {
        assert s[j + 1] == 't';
        AtIndex(s, Close, j, 1);
      } else if j < o + |Open| {
        assert s[j] == Open[j - o];
        TagNeedsAngle(s, j);
      } else {
        assert s[j] == mid[j - o - |Open|];
        TagNeedsAngle(s, j);
      }
    }
    FindIs(s, Close, c);
    assert s[..o] == pre;
    assert s[c + |Close|..] == post;
  }

  /**
   * The normal case: a single `<think>…</think>` block in text without any other '<' is removed
   * by the first pass, and the loop then stops, so every number of passes from one on gives the
   * text without it.
   */
  lemma {:induction false} OneBlockOnePass(pre: string, mid: string, post: string, n: nat)
    requires '<' !in pre + mid + post && n >= 1
    ensures ThinkIterate(pre + Open + mid + Close + post, n) == pre + post
    ensures !InLoop(pre + post)
    decreases n
  {
    assert '<' !in pre && '<' !in mid && '<' !in post by {
      assert forall k :: 0 <= k < |pre| ==> (pre + mid + post)[k] == pre[k];
      assert forall k :: 0 <= k < |mid| ==> (pre + mid + post)[|pre| + k] == mid[k];
      assert forall k :: 0 <= k < |post| ==> (pre + mid + post)[|pre| + |mid| + k] == post[k];
    }
    forall k | 0 <= k < |pre + post| ensures (pre + post)[k] != '<' {
      if k < |pre| { assert (pre + post)[k] == pre[k]; } else { assert (pre + post)[k] == post[k - |pre|]; }
    }
    NoAngleNoLoop(pre + post);
    if n == 1 {
      ThinkStepRemovesBlock(pre, mid, post);
    } else {
      OneBlockOnePass(pre, mid, post, n - 1);
    }
  }

  /**
   * The `while` loop of `summarize_sources`, cut off after `fuel` passes. It stops early
   * exactly when a tag is missing, and a text whose first "</think>" comes first uses up
   * any fuel.
   */
  method StripThinkTags(summary: string, fuel: nat) returns (r: string, passes: nat)
    ensures passes <= fuel
    ensures r == ThinkIterate(summary, passes)
    ensures passes < fuel ==> !InLoop(r)
    ensures CloseFirst(summary) ==> passes == fuel && CloseFirst(r)
  {
    r := summary;
    passes := 0;
    while passes < fuel && InLoop(r)
      invariant passes <= fuel
      invariant r == ThinkIterate(summary, passes)
      invariant CloseFirst(summary) ==> CloseFirst(r)
    {
      if CloseFirst(summary) {
        CloseFirstStays(r);
      }
      r := ThinkStep(r);
      passes := passes + 1;
    }
  }

  // ---------------------------------------------------------------------------
  // finalize_summary

  const SummaryHead: string := "## Summary\n\n"
  const SourcesHead: string := "\n\n ### Sources:\n"

  /** The final text: the summary under its heading, then the gathered sources one per line. */
  function FinalSummary(summary: string, sources: seq<string>): (r: string)
    ensures StartsWith(r, SummaryHead + summary + SourcesHead)
  {
    SummaryHead + summary + SourcesHead + Join(sources, "\n")
  }

  /**
   * What follows the heading is exactly the sources joined by newlines; when no source spans
   * several lines, splitting it gives the sources back.
   */
  lemma FinalSummaryKeepsSources(summary: string, sources: seq<string>)
    ensures var r := FinalSummary(summary, sources);
            var head := SummaryHead + summary + SourcesHead;
            r[|head|..] == Join(sources, "\n")
    ensures var r := FinalSummary(summary, sources);
            var head := SummaryHead + summary + SourcesHead;
            |sources| >= 1 && NoneContains(sources, '\n') ==> SplitOn(r[|head|..], "\n") == sources
  {
    var head := SummaryHead + summary + SourcesHead;
    assert FinalSummary(summary, sources)[|head|..] == Join(sources, "\n");
    if |sources| >= 1 && NoneContains(sources, '\n') {
      SplitJoinRoundTrip(sources, '\n');
    }
  }

  /** The research state as `finalize_summary` sees it. */
  class ResearchState {
    var runningSummary: string
    var sourcesGathered: seq<string>

    constructor (summary: string, sources: seq<string>)
      ensures runningSummary == summary && sourcesGathered == sources
    {
      runningSummary := summary;
      sourcesGathered := sources;
    }

    /** `finalize_summary`: the running summary becomes the final text; the sources stay. */
    method FinalizeSummary() returns (r: string)
      modifies this
      ensures runningSummary == FinalSummary(old(runningSummary), old(sourcesGathered))
      ensures sourcesGathered == old(sourcesGathered)
      ensures r == runningSummary
    {
      runningSummary := SummaryHead + runningSummary + SourcesHead + Join(sourcesGathered, "\n");
      r := runningSummary;
    }
  }
}
