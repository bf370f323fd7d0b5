/**
 * The deterministic parts of the browser agent's front end: numbering the extracted contents
 * of an agent history dump, reading an uploaded file by its suffix, choosing the API key by
 * model name, and picking the final result from the agent's history. The browser agent, the
 * PDF and Word readers and the environment are parameters.
 */
module Browser {
  import opened Common
  import opened PyStrings

  // ---------------------------------------------------------------------------
  // parse_agent_history

  const ResultMarker: string := "ActionResult("
  const ContentMarker: string := "extracted_content="

  /** What one section prints: the text after `extracted_content=` up to the next comma, quotes stripped. */
  function SectionContent(section: string): (r: string)
    ensures !Contains(section, ContentMarker) ==> r == ""
    ensures |r| > 0 ==> r[0] != '\'' && r[|r| - 1] != '\''
  {
    if Contains(section, ContentMarker) then
      Strip(SplitOn(SplitOn(section, ContentMarker)[1], ",")[0], {'\''})
    else ""
  }

  /** `=` ends the marker and occurs nowhere else in it; the marker holds no comma. */
  lemma MarkerShape()
    ensures |ContentMarker| == 18 && ContentMarker[17] == '='
    ensures forall m :: 0 <= m < 17 ==> ContentMarker[m] != '='
    ensures ',' !in ContentMarker
  {
  }

  /** After a text without the marker, the marker's first occurrence is the one that follows it. */
  lemma MarkerFirstAt(pre: string, post: string)
    requires !Contains(pre, ContentMarker)
    ensures Find(pre + ContentMarker + post, ContentMarker) == |pre|
  {
    var s := pre + ContentMarker + post;
    MarkerShape();
    ContainsIff(pre, ContentMarker);
    assert IsAt(s, ContentMarker, |pre|) by { assert s[|pre|..|pre| + 18] == ContentMarker; }
    forall j: nat | j < |pre| ensures !IsAt(s, ContentMarker, j) {
      if j + 18 <= |pre| {
        assert s[j..j + 18] == pre[j..j + 18];
        assert !IsAt(pre, ContentMarker, j);
      } else {
        assert s[j + 17] == ContentMarker[j + 17 - |pre|];
        assert s[j..j + 18][17] == s[j + 17];
      }
    }
    FindIs(s, ContentMarker, |pre|);
  }

  /** Before the next marker, a comma-free text followed by a comma is the first comma piece. */
  lemma ContentBeforeComma(c: string, rest: string)
    requires ',' !in c && !Contains(c, ContentMarker)
    ensures SplitOn(SplitOn(c + "," + rest, ContentMarker)[0], ",")[0] == c
  {
    var post := c + "," + rest;
    MarkerShape();
    ContainsIff(c, ContentMarker);
    forall j: nat | j <= |c| ensures !IsAt(post, ContentMarker, j) {
      if j + 18 <= |c| {
        assert post[j..j + 18] == c[j..j + 18];
        assert !IsAt(c, ContentMarker, j);
      } else if j + 18 <= |post| {
        assert post[j..j + 18][|c| - j] == post[|c|] == ',';
      }
    }
    SplitHead(post, ContentMarker);
    var k := Find(post, ContentMarker);
    var head := if k < 0 then post else post[..k];
    assert SplitOn(post, ContentMarker)[0] == head;
    assert head[..|c| + 1] == c + ",";
    assert IsAt(head, ",", |c|) by { assert head[|c|..|c| + 1] == ","; }
    forall j: nat | j < |c| ensures !IsAt(head, ",", j) {
      assert head[j..j + 1] == [c[j]];
    }
    FindIs(head, ",", |c|);
    SplitHead(head, ",");
  }

  /** A section prints the comma-free text right after its first `extracted_content=`, quotes stripped. */
  lemma SectionContentOf(pre: string, c: string, rest: string)
    requires !Contains(pre, ContentMarker) && ',' !in c && !Contains(c, ContentMarker)
    ensures SectionContent(pre + ContentMarker + c + "," + rest) == Strip(c, {'\''})
  {
    var post := c + "," + rest;
    assert pre + ContentMarker + c + "," + rest == pre + ContentMarker + post;
    MarkerFirstAt(pre, post);
    SplitFirst(pre, ContentMarker, post);
    ContainsIff(pre + ContentMarker + post, ContentMarker);
    ContentBeforeComma(c, rest);
  }

  /** Without a comma after it, the whole text after the marker is printed, quotes stripped. */
  lemma SectionContentAtEnd(pre: string, c: string)
    requires !Contains(pre, ContentMarker) && ',' !in c && !Contains(c, ContentMarker)
    ensures SectionContent(pre + ContentMarker + c) == Strip(c, {'\''})
  {
    MarkerFirstAt(pre, c);
    SplitFirst(pre, ContentMarker, c);
    SplitHead(c, ContentMarker);
    ContainsChar(c, ',');
    SplitHead(c, ",");
  }

  /** What each section prints, in order. */
  function Contents(sections: seq<string>): (r: seq<string>)
    ensures |r| == |sections|
    ensures forall i :: 0 <= i < |r| ==> r[i] == SectionContent(sections[i])
  {
    seq(|sections|, i requires 0 <= i < |sections| => SectionContent(sections[i]))
  }

  /** A printed panel: its step number and its content. */
  datatype Panel = Panel(step: nat, content: string)

  /** The panels printed for the contents before index `n`; content 0 is skipped. */
  function PanelsBelow(contents: seq<string>, n: nat): seq<Panel>
    requires 1 <= n <= |contents|
  {
    if n == 1 then []
    else
      var earlier := PanelsBelow(contents, n - 1);
      if |contents[n - 1]| > 0 then earlier + [Panel(n - 1, contents[n - 1])] else earlier
  }

  /** The loop of `parse_agent_history` over the sections' contents. */
  method NumberContents(contents: seq<string>) returns (panels: seq<Panel>)
    requires |contents| >= 1
    ensures panels == PanelsBelow(contents, |contents|)
  {
    panels := [];
    var i := 1;
    while i < |contents|
      invariant 1 <= i <= |contents|
      invariant panels == PanelsBelow(contents, i)
    {
      var content := contents[i];
      if |content| > 0 {
        panels := panels + [Panel(i, content)];
      }
      i := i + 1;
    }
  }

  /**
   * `parse_agent_history`, returning the panels it prints: the text before the first
   * `ActionResult(` is skipped and the sections after it are numbered from 1.
   */
  method ParseAgentHistory(history: string) returns (panels: seq<Panel>)
    ensures var sections := SplitOn(history, ResultMarker);
            panels == PanelsBelow(Contents(sections), |sections|)
  {
    var sections := SplitOn(history, ResultMarker);
    panels := NumberContents(Contents(sections));
  }

  /** Each panel shows the non-empty content of the section its number names. */
  lemma {:induction false} PanelsShowTheirSection(contents: seq<string>, n: nat)
    requires 1 <= n <= |contents|
    ensures forall k :: 0 <= k < |PanelsBelow(contents, n)| ==>
              1 <= PanelsBelow(contents, n)[k].step < n
              && PanelsBelow(contents, n)[k].content == contents[PanelsBelow(contents, n)[k].step]
              && |PanelsBelow(contents, n)[k].content| > 0
    decreases n
  {
    if n > 1 {
      PanelsShowTheirSection(contents, n - 1);
      var earlier := PanelsBelow(contents, n - 1);
      var panels := PanelsBelow(contents, n);
      assert |contents[n - 1]| > 0 ==> panels == earlier + [Panel(n - 1, contents[n - 1])];
      assert |contents[n - 1]| == 0 ==> panels == earlier;
    }
  }

  /** Panel numbers increase. */
  lemma {:induction false} PanelsIncrease(contents: seq<string>, n: nat)
    requires 1 <= n <= |contents|
    ensures forall k, l :: 0 <= k < l < |PanelsBelow(contents, n)| ==>
              PanelsBelow(contents, n)[k].step < PanelsBelow(contents, n)[l].step
    decreases n
  {
    if n > 1 {
      PanelsIncrease(contents, n - 1);
      PanelsShowTheirSection(contents, n - 1);
      var earlier := PanelsBelow(contents, n - 1);
      var panels := PanelsBelow(contents, n);
      assert |contents[n - 1]| > 0 ==> panels == earlier + [Panel(n - 1, contents[n - 1])];
      assert |contents[n - 1]| == 0 ==> panels == earlier;
    }
  }

  /** Some panel carries step number `m`. */
  predicate HasPanel(panels: seq<Panel>, m: nat)
  {
    exists k :: 0 <= k < |panels| && panels[k].step == m
  }

  /** Every section with content gets its panel; one with nothing to show keeps its number unused. */
  lemma {:induction false} PanelsCoverSections(contents: seq<string>, n: nat)
    requires 1 <= n <= |contents|
    ensures forall m: nat :: 1 <= m < n && |contents[m]| > 0 ==> HasPanel(PanelsBelow(contents, n), m)
    decreases n
  {
    if n > 1 {
      PanelsCoverSections(contents, n - 1);
      var earlier := PanelsBelow(contents, n - 1);
      var panels := PanelsBelow(contents, n);
      assert |contents[n - 1]| > 0 ==> panels == earlier + [Panel(n - 1, contents[n - 1])];
      assert |contents[n - 1]| == 0 ==> panels == earlier;
      forall m: nat | 1 <= m < n && |contents[m]| > 0
        ensures HasPanel(panels, m)
      {
        if m == n - 1 {
          assert panels[|earlier|].step == m;
        } else {
          assert HasPanel(earlier, m);
          var k :| 0 <= k < |earlier| && earlier[k].step == m;
          assert panels[k] == earlier[k];
        }
      }
    }
  }

  /** A history without any `ActionResult(` prints nothing. */
  lemma NoResultsNoPanels(history: string)
    requires !Contains(history, ResultMarker)
    ensures |SplitOn(history, ResultMarker)| == 1
    ensures PanelsBelow(Contents(SplitOn(history, ResultMarker)), |SplitOn(history, ResultMarker)|) == []
  {
  }

  // ---------------------------------------------------------------------------
  // read_file_content

  /** What the external readers give for the uploaded file. */
  datatype FileData = FileData(
    /** `page.extract_text()` per PDF page, `None` for a page without text. */
    pdfPages: seq<Option<string>>,
    /** `paragraph.text` per Word paragraph. */
    paragraphs: seq<string>,
    /** `f.read()` of a text file. */
    text: string)

  datatype FileKind = Pdf | Word | PlainText

  /** The dispatch of `read_file_content`: ".pdf" first, then ".doc"/".docx", then text. */
  function KindOf(path: string): (k: FileKind)
    ensures k == Pdf <==> EndsWith(path, ".pdf")
    ensures k == Word <==> !EndsWith(path, ".pdf") && (EndsWith(path, ".doc") || EndsWith(path, ".docx"))
  {
    if EndsWith(path, ".pdf") then Pdf
    else if EndsWith(path, ".doc") || EndsWith(path, ".docx") then Word
    else PlainText
  }

  /** A ".docx" upload goes to the Word reader, whatever its name before the suffix. */
  lemma DocxIsWord(base: string)
    ensures KindOf(base + ".docx") == Word
  {
    var path := base + ".docx";
    assert path[|path| - 5..] == ".docx";
    assert path[|path| - 1] == 'x';
    assert !EndsWith(path, ".pdf") by { assert ".pdf"[3] == 'f'; }
  }

  /** The pages' texts one after the other, a page without text adding nothing. */
  function PdfText(pages: seq<Option<string>>): string
  {
    if |pages| == 0 then ""
    else PdfText(pages[..|pages| - 1]) + (if pages[|pages| - 1].Some? then pages[|pages| - 1].value else "")
  }

  /** `read_file_content`: "" without a file, otherwise the reader its suffix selects. */
  method ReadFileContent(path: Option<string>, data: FileData) returns (content: string)
    ensures path.None? ==> content == ""
    ensures path.Some? && KindOf(path.value) == Pdf ==> content == PdfText(data.pdfPages)
    ensures path.Some? && KindOf(path.value) == Word ==> content == Join(data.paragraphs, "\n")
    ensures path.Some? && KindOf(path.value) == PlainText ==> content == data.text
  {
    if path.None? {
      return "";
    }
    content := "";
    var name := path.value;
    if EndsWith(name, ".pdf") {
      var i := 0;
      while i < |data.pdfPages|
        invariant 0 <= i <= |data.pdfPages|
        invariant content == PdfText(data.pdfPages[..i])
      {
        assert data.pdfPages[..i + 1][..i] == data.pdfPages[..i];
        var page := data.pdfPages[i];
        content := content + (if page.Some? then page.value else "");
        i := i + 1;
      }
      assert data.pdfPages[..i] == data.pdfPages;
    } else if EndsWith(name, ".doc") || EndsWith(name, ".docx") {
      content := Join(data.paragraphs, "\n");
    } else {
      content := data.text;
    }
  }

  const FileHead: string := "Here is the content of my file for reference:\n"
  const TaskHead: string := "\n\nTask: "

  /** With an upload the request sent to the agent carries the file's content first, then the task. */
  function TaskWithFile(task: string, fileContent: string): (r: string)
    ensures |r| == |FileHead| + |fileContent| + |TaskHead| + |task|
    ensures StartsWith(r, FileHead)
    ensures r[|FileHead|..|FileHead| + |fileContent|] == fileContent
    ensures EndsWith(r, TaskHead + task)
  {
    FileHead + fileContent + TaskHead + task
  }

  // ---------------------------------------------------------------------------
  // run_browser_task: key selection and final result

  /** The client `run_browser_task` would build, or the error it returns before building one. */
  datatype Setup = KeyMissing(message: string) | DeepSeekClient(apiKey: string) | OpenAiClient(model: string, apiKey: string)

  const DeepSeekMissing: string := "Error: DEEPSEEK_API_KEY not found in environment variables"
  const OpenAiMissing: string := "Error: OPENAI_API_KEY not found in environment variables"

  /** `os.getenv(name, '')`. */
  function GetEnv(env: map<string, string>, name: string): string
  {
    if name in env then env[name] else ""
  }

  /** `'deepseek' in model.lower()`. */
  predicate UsesDeepSeek(model: string)
  {
    Contains(ToLower(model), "deepseek")
  }

  /** The environment variable the chosen client needs. */
  function KeyVar(model: string): string
  {
    if UsesDeepSeek(model) then "DEEPSEEK_API_KEY" else "OPENAI_API_KEY"
  }

  /**
   * The key selection of `run_browser_task`. `ChatOpenAI(model=model)` reads the OpenAI key
   * from the environment itself; the model records that key in the client.
   */
  function ChooseClient(model: string, env: map<string, string>): (r: Setup)
    ensures r.KeyMissing? ==> r.message == if UsesDeepSeek(model) then DeepSeekMissing else OpenAiMissing
    ensures r.DeepSeekClient? ==> UsesDeepSeek(model)
    ensures r.OpenAiClient? ==> !UsesDeepSeek(model) && r.model == model
    ensures !r.KeyMissing? ==> r.apiKey == GetEnv(env, KeyVar(model))
  {
    if UsesDeepSeek(model) then
      var key := GetEnv(env, "DEEPSEEK_API_KEY");
      if Trim(key) == "" then KeyMissing(DeepSeekMissing) else DeepSeekClient(key)
    else
      var key := GetEnv(env, "OPENAI_API_KEY");
      if Trim(key) == "" then KeyMissing(OpenAiMissing) else OpenAiClient(model, key)
  }

  /**
   * The agent is never started exactly when the chosen key is missing or made only of
   * blanks; any other key reaches the client unchanged.
   */
  lemma BlankKeyIsMissing(model: string, env: map<string, string>)
    ensures var key := GetEnv(env, KeyVar(model));
            ChooseClient(model, env).KeyMissing? <==> forall i :: 0 <= i < |key| ==> key[i] in Whitespace
  {
    TrimBlank(GetEnv(env, KeyVar(model)));
  }

  /** The eight characters of `model` from `k` read "deepseek" once lower-cased. */
  predicate NamesDeepSeekAt(model: string, k: nat)
  {
    k + 8 <= |model| && ToLower(model[k..k + 8]) == "deepseek"
  }

  /** The DeepSeek client is chosen exactly when the model name contains "deepseek" in any letter case. */
  lemma DeepSeekInAnyCase(model: string)
    ensures UsesDeepSeek(model) <==> exists k: nat :: NamesDeepSeekAt(model, k)
  {
    var low := ToLower(model);
    ContainsIff(low, "deepseek");
    forall k: nat | k + 8 <= |model|
      ensures IsAt(low, "deepseek", k) <==> NamesDeepSeekAt(model, k)
    {
      ToLowerSlice(model, k, k + 8);
    }
    if UsesDeepSeek(model) {
      var k: nat :| k <= |low| && IsAt(low, "deepseek", k);
      assert NamesDeepSeekAt(model, k);
    }
  }

  /** One step of the agent's history: the `extracted_content` of each of its results. */
  datatype HistoryItem = HistoryItem(results: seq<Option<string>>)

  const NoOutput: string := "Task completed but no specific output was generated."

  /** The first truthy content among one step's results. */
  function FirstContent(results: seq<Option<string>>): (r: Option<string>)
    ensures r.Some? ==> r.value != "" && exists i :: 0 <= i < |results| && results[i] == r
    ensures r.None? <==> forall i :: 0 <= i < |results| ==> !Truthy(results[i])
  {
    if |results| == 0 then None
    else if Truthy(results[0]) then results[0]
    else FirstContent(results[1..])
  }

  /** The content of the newest step that has one. */
  function NewestContent(items: seq<HistoryItem>): (r: Option<string>)
  {
    if |items| == 0 then None
    else
      var last := FirstContent(items[|items| - 1].results);
      if last.Some? then last else NewestContent(items[..|items| - 1])
  }

  /** No content at all exactly when no step has one. */
  lemma {:induction false} NewestContentNone(items: seq<HistoryItem>)
    ensures NewestContent(items).None? <==> forall i :: 0 <= i < |items| ==> FirstContent(items[i].results).None?
    decreases |items|
  {
    if |items| > 0 {
      var front := items[..|items| - 1];
      NewestContentNone(front);
      assert forall i :: 0 <= i < |front| ==> front[i] == items[i];
    }
  }

  /** Otherwise it is the first content of a step after which no step has content. */
  lemma {:induction false} NewestContentIsNewest(items: seq<HistoryItem>)
    requires NewestContent(items).Some?
    ensures exists i :: 0 <= i < |items| && NewestContent(items) == FirstContent(items[i].results)
              && forall j :: i < j < |items| ==> FirstContent(items[j].results).None?
    decreases |items|
  {
    var n := |items|;
    var front := items[..n - 1];
    if FirstContent(items[n - 1].results).Some? {
      assert NewestContent(items) == FirstContent(items[n - 1].results);
    } else {
      assert NewestContent(items) == NewestContent(front);
      NewestContentIsNewest(front);
      var i :| 0 <= i < |front| && NewestContent(front) == FirstContent(front[i].results)
                 && forall j :: i < j < |front| ==> FirstContent(front[j].results).None?;
      assert items[i] == front[i];
      forall j | i < j < n
        ensures FirstContent(items[j].results).None?
      {
        if j < n - 1 {
          assert items[j] == front[j];
        }
      }
    }
  }

  /** The result extraction of `run_browser_task`: newest step first, first result within it. */
  method ExtractFinalResult(history: seq<HistoryItem>) returns (finalResult: string)
    ensures finalResult == if NewestContent(history).Some? then NewestContent(history).value else NoOutput
    ensures finalResult != ""
  {
    finalResult := "";
    var i := |history|;
    assert history[..i] == history;
    while i > 0
      invariant 0 <= i <= |history|
      invariant finalResult == ""
      invariant NewestContent(history) == NewestContent(history[..i])
    {
      var item := history[i - 1];
      var j := 0;
      while j < |item.results|
        invariant 0 <= j <= |item.results|
        invariant forall k :: 0 <= k < j ==> !Truthy(item.results[k])
      {
        if Truthy(item.results[j]) {
          finalResult := item.results[j].value;
          break;
        }
        j := j + 1;
      }
      if finalResult != "" {
        FirstContentIs(item.results, j);
        assert history[..i][..i - 1] == history[..i - 1];
        return;
      }
      assert FirstContent(item.results).None?;
      assert history[..i][..i - 1] == history[..i - 1];
      i := i - 1;
    }
    finalResult := NoOutput;
  }

  /** The first truthy result is the one at j when none before it is. */
  lemma FirstContentIs(results: seq<Option<string>>, j: nat)
    requires j < |results| && Truthy(results[j])
    requires forall k :: 0 <= k < j ==> !Truthy(results[k])
    ensures FirstContent(results) == results[j]
  {
    if j > 0 {
      FirstContentIs(results[1..], j - 1);
    }
  }
}
