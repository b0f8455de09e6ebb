/** The hierarchical reduction pipeline of `src/utils/pdfProcessor.ts`.

    Page text becomes one chunk per page; each chunk is summarised (base
    level); base summaries are summarised in consecutive groups of at most
    three (section level); section summaries likewise (chapter level); and
    all chapter summaries once more (executive summary). A step counter
    drives a progress percentage.

    The PDF library is replaced by its output, a list of pages each given as
    its list of text fragments. The OpenAI client is replaced by a function
    `Api` from the prompt to the reply; it may raise. */
module PdfProcessor {
  import opened Wrappers
  import opened Text

  // ---------------------------------------------------------------------
  // Data model
  // ---------------------------------------------------------------------

  datatype Metadata = Metadata(page: nat)

  /** The text of one page and its 1-based page number. */
  datatype ContentChunk = ContentChunk(text: string, metadata: Metadata)

  /** Reserved for concept extraction; always empty in this version. */
  datatype KnowledgeBase = KnowledgeBase(concepts: map<string, string>, themes: seq<string>, references: seq<string>)

  datatype ProcessedContent = ProcessedContent(
    baseSummaries: seq<string>,
    sectionSummaries: seq<string>,
    chapterSummaries: seq<string>,
    executiveSummary: string,
    knowledgeBase: KnowledgeBase)

  /** The `error` object of a failed completion request (its `type` and `code`). */
  datatype ErrorBody = ErrorBody(kind: Option<string>, code: Option<string>)

  /** What a failing run throws: the completion client's error, carrying
      its `error` object when it has one, or a JavaScript TypeError. */
  datatype Thrown = ApiError(body: Option<ErrorBody>) | TypeError

  /** The completion service's reply to one prompt: the content of the first
      choice (which may be null), or a raised error. */
  datatype Reply = Answered(content: Option<string>) | Raised(body: Option<ErrorBody>)

  type Api = string -> Reply

  /** The `type` argument of `processWithAI`: the four types the pipeline
      uses ('base_summary', 'section_summary', 'chapter_summary',
      'executive_summary') and any other string; `Other` never carries one
      of the four names, which the `switch` would send to their own case. */
  datatype PromptType = BaseSummary | SectionSummary | ChapterSummary | ExecutiveSummary | Other(name: string)

  /** Separator between the summaries handed to the next level. */
  const SEPARATOR := "\n\n"

  /** Extraction takes the first 20 percent, the reduction stages the other 80. */
  const EXTRACTION_SHARE: real := 20.0
  const PROCESSING_SHARE: real := 80.0

  // ---------------------------------------------------------------------
  // Prompts and the completion call
  // ---------------------------------------------------------------------

  /** The fixed text each template puts before `${text}`; every template
      ends with the text itself. */
  const BASE_INTRO := "Summarize the following text from page "
  const SECTION_INSTRUCTION := "Create a concise summary of the following section:\n\n"
  const CHAPTER_INSTRUCTION := "Provide a comprehensive summary of this chapter:\n\n"
  const EXECUTIVE_INSTRUCTION := "Create an executive summary of the entire document based on these chapter summaries:\n\n"
  const DEFAULT_INSTRUCTION := "Summarize the following text:\n\n"

  function Instruction(kind: PromptType, page: nat): string {
    match kind
    case BaseSummary => BASE_INTRO + NatToString(page) + ":\n\n"
    case SectionSummary => SECTION_INSTRUCTION
    case ChapterSummary => CHAPTER_INSTRUCTION
    case ExecutiveSummary => EXECUTIVE_INSTRUCTION
    case Other(_) => DEFAULT_INSTRUCTION
  }

  /** `generatePrompt`. Only the base template reads `metadata.page`; with no
      metadata that read throws. Whatever the type, the prompt ends with the
      text it summarises. */
  function GeneratePrompt(text: string, kind: PromptType, metadata: Option<Metadata>): (r: Result<string, Thrown>)
    ensures r.Failure? <==> kind == BaseSummary && metadata.None?
    ensures r.Failure? ==> r.error == TypeError
    ensures r.Success? ==> |text| <= |r.value| && r.value[|r.value| - |text|..] == text
  {
    if kind == BaseSummary && metadata.None? then Failure(TypeError)
    else
      var instruction := Instruction(kind, if metadata.Some? then metadata.value.page else 0);
      assert (instruction + text)[|instruction|..] == text;
      Success(instruction + text)
  }

  /** Sending one prompt: a raised error propagates, missing content becomes "". */
  function Complete(ai: Api, prompt: string): (r: Result<string, Thrown>)
    ensures r.Failure? <==> ai(prompt).Raised?
    ensures r.Failure? ==> r.error == ApiError(ai(prompt).body)
    ensures ai(prompt).Answered? ==> r == Success(ai(prompt).content.GetOr(""))
  {
    match ai(prompt)
    case Raised(body) => Failure(ApiError(body))
    case Answered(content) => Success(if content.Some? then content.value else "")
  }

  // ---------------------------------------------------------------------
  // Specification of the stages
  // ---------------------------------------------------------------------

  /** The chunks of a document: page i (0-based) becomes page number i + 1,
      its fragments joined with one space. */
  function Chunks(pages: seq<seq<string>>): seq<ContentChunk> {
    seq(|pages|, i requires 0 <= i < |pages| => ContentChunk(Join(pages[i], " "), Metadata(i + 1)))
  }

  /** Progress reported after page i of n during extraction. */
  function ExtractionValue(i: nat, n: nat): real
    requires n > 0
  {
    (i as real / n as real) * EXTRACTION_SHARE
  }

  function ExtractionReports(n: nat): seq<real> {
    seq(n, i requires 0 <= i < n => ExtractionValue(i + 1, n))
  }

  /** Progress reported when the step counter has reached `step` of `total`. */
  function ProgressValue(step: nat, total: nat): real
    requires total > 0
  {
    EXTRACTION_SHARE + (step as real / total as real) * PROCESSING_SHARE
  }

  /** The reports of steps `from + 1` to `to`, one per step. */
  function Reports(from: nat, to: nat, total: nat): seq<real>
    requires from <= to && total > 0
  {
    seq(to - from, k requires 0 <= k < to - from => ProgressValue(from + k + 1, total))
  }

  function CeilThird(n: nat): nat {
    (n + 2) / 3
  }

  function Min(a: int, b: int): int {
    if a <= b then a else b
  }

  /** Group k exists exactly when it starts inside the list. */
  lemma GroupExists(n: nat, k: nat)
    ensures 3 * k < n <==> k < CeilThird(n)
  {
  }

  /** Consecutive groups of at most three, in order; only the last may be shorter. */
  function Groups(s: seq<string>): (gs: seq<seq<string>>)
    ensures |gs| == CeilThird(|s|)
    decreases |s|
  {
    if |s| == 0 then []
    else if |s| <= 3 then [s]
    else [s[..3]] + Groups(s[3..])
  }

  /** Group k: items [3k, 3k + 3), cut off at the end of the list. */
  function Group(items: seq<string>, k: nat): (g: seq<string>)
    requires k < CeilThird(|items|)
    ensures 1 <= |g| <= 3
  {
    GroupExists(|items|, k);
    items[3 * k .. Min(3 * k + 3, |items|)]
  }

  /** The base prompt for one chunk: its text, introduced with its page number. */
  function BasePrompt(chunk: ContentChunk): string {
    GeneratePrompt(chunk.text, BaseSummary, Some(chunk.metadata)).value
  }

  /** The prompts of the base stage, one per chunk. */
  function BasePrompts(chunks: seq<ContentChunk>): (ps: seq<string>)
    ensures |ps| == |chunks|
  {
    seq(|chunks|, i requires 0 <= i < |chunks| => BasePrompt(chunks[i]))
  }

  /** The prompts of the section or chapter stage over `items`, one per group. */
  function GroupPrompts(items: seq<string>, kind: PromptType): (ps: seq<string>)
    requires kind != BaseSummary
    ensures |ps| == CeilThird(|items|)
  {
    seq(CeilThird(|items|), k requires 0 <= k < CeilThird(|items|) =>
      GeneratePrompt(Join(Group(items, k), SEPARATOR), kind, None).value)
  }

  function ExecutivePrompt(chapters: seq<string>): string {
    GeneratePrompt(Join(chapters, SEPARATOR), ExecutiveSummary, None).value
  }

  /** The outcome of one stage: the answers received, in order, and the
      error that stopped the stage, if one did. */
  datatype StageRun = StageRun(answers: seq<string>, failure: Option<Thrown>) {
    function Sent(): nat {
      |answers| + if failure.Some? then 1 else 0
    }
  }

  /** Sending the prompts one at a time; the first error stops the stage. */
  function RunStage(ai: Api, prompts: seq<string>): (o: StageRun)
    ensures o.Sent() <= |prompts|
    ensures o.failure.None? ==> |o.answers| == |prompts|
    decreases |prompts|
  {
    if |prompts| == 0 then StageRun([], None)
    else
      var o := RunStage(ai, prompts[..|prompts| - 1]);
      if o.failure.Some? then o
      else match Complete(ai, prompts[|prompts| - 1])
        case Success(a) => StageRun(o.answers + [a], None)
        case Failure(e) => StageRun(o.answers, Some(e))
  }

  /** One run of the reduction stages: its result, every prompt sent, and
      how many times the step counter advanced. */
  datatype Run = Run(result: Result<ProcessedContent, Thrown>, prompts: seq<string>, steps: nat)

  function Hierarchy(ai: Api, chunks: seq<ContentChunk>): Run {
    var p1 := BasePrompts(chunks);
    var base := RunStage(ai, p1);
    if base.failure.Some? then
      Run(Failure(base.failure.value), p1[..base.Sent()], |base.answers|)
    else
      var p2 := GroupPrompts(base.answers, SectionSummary);
      var sections := RunStage(ai, p2);
      if sections.failure.Some? then
        Run(Failure(sections.failure.value), p1 + p2[..sections.Sent()], |p1| + |sections.answers|)
      else
        var p3 := GroupPrompts(sections.answers, ChapterSummary);
        var chapters := RunStage(ai, p3);
        if chapters.failure.Some? then
          Run(Failure(chapters.failure.value), p1 + p2 + p3[..chapters.Sent()], |p1| + |p2| + |chapters.answers|)
        else
          var p4 := ExecutivePrompt(chapters.answers);
          match Complete(ai, p4)
          case Failure(e) =>
            Run(Failure(e), p1 + p2 + p3 + [p4], |p1| + |p2| + |p3|)
          case Success(executive) =>
            Run(Success(ProcessedContent(base.answers, sections.answers, chapters.answers, executive,
                                         KnowledgeBase(map[], [], []))),
                p1 + p2 + p3 + [p4], |p1| + |p2| + |p3| + 1)
  }

  /** Every value passed to `onProgress` by a whole run over `pages`. */
  function RunReports(ai: Api, pages: seq<seq<string>>): seq<real> {
    ExtractionReports(|pages|) + Reports(0, Hierarchy(ai, Chunks(pages)).steps, |pages| + 3)
  }

  // ---------------------------------------------------------------------
  // Facts the stage loops rely on
  // ---------------------------------------------------------------------

  /** Group k covers items [3k, 3k + 3), cut off at the end of the list. */
  lemma {:induction false} GroupAt(s: seq<string>, k: nat)
    requires k < CeilThird(|s|)
    ensures 3 * k < |s|
    ensures Groups(s)[k] == Group(s, k)
    decreases |s|
  {
    if |s| > 3 && k > 0 {
      GroupAt(s[3..], k - 1);
      assert s[3..][3 * (k - 1) .. Min(3 * (k - 1) + 3, |s| - 3)] == s[3 * k .. Min(3 * k + 3, |s|)];
    }
  }

  /** The prompt of group k joins items [3k, 3k + 3) with a blank line. */
  lemma GroupPromptAt(items: seq<string>, kind: PromptType, i: nat, k: nat)
    requires kind != BaseSummary && i == 3 * k && i < |items|
    ensures k < |GroupPrompts(items, kind)|
    ensures GroupPrompts(items, kind)[k] ==
      GeneratePrompt(Join(items[i .. Min(i + 3, |items|)], SEPARATOR), kind, None).value
  {
    GroupExists(|items|, k);
    assert Group(items, k) == items[i .. Min(i + 3, |items|)];
  }

  /** Once a prefix of the prompts has failed, the later prompts are never sent. */
  lemma {:induction false} RunStageStops(ai: Api, prompts: seq<string>, i: nat)
    requires i <= |prompts|
    requires RunStage(ai, prompts[..i]).failure.Some?
    ensures RunStage(ai, prompts) == RunStage(ai, prompts[..i])
    decreases |prompts|
  {
    if i < |prompts| {
      var front := prompts[..|prompts| - 1];
      TakeTake(prompts, i, |prompts| - 1);
      RunStageStops(ai, front, i);
    } else {
      TakeAll(prompts);
    }
  }

  /** Extending the sent prefix by one prompt: its answer is appended, or
      its error ends the whole stage. */
  lemma RunStageStep(ai: Api, prompts: seq<string>, i: nat, answers: seq<string>)
    requires i < |prompts|
    requires RunStage(ai, prompts[..i]) == StageRun(answers, None)
    ensures Complete(ai, prompts[i]).Success? ==>
      RunStage(ai, prompts[..i + 1]) == StageRun(answers + [Complete(ai, prompts[i]).value], None)
    ensures Complete(ai, prompts[i]).Failure? ==>
      RunStage(ai, prompts) == StageRun(answers, Some(Complete(ai, prompts[i]).error))
  {
    TakeTake(prompts, i, i + 1);
    if Complete(ai, prompts[i]).Failure? {
      RunStageStops(ai, prompts, i + 1);
    }
  }

  /** How a stage method ends: with the stage's answers or its error, having
      sent the prompts up to and including the failing one, and advanced the
      counter once per answer. */
  ghost predicate StageOutcome(ai: Api, prompts: seq<string>, r: Result<seq<string>, Thrown>,
                               sent0: seq<string>, sent: seq<string>, step0: nat, step: nat)
  {
    var o := RunStage(ai, prompts);
    && r == (if o.failure.Some? then Failure(o.failure.value) else Success(o.answers))
    && sent == sent0 + prompts[..o.Sent()]
    && step == step0 + |o.answers|
  }

  /** A stage whose prompt `i` raised. */
  lemma StageStopped(ai: Api, prompts: seq<string>, i: nat, answers: seq<string>, e: Thrown,
                     sent0: seq<string>, sent: seq<string>, step0: nat, step: nat)
    requires i < |prompts| && |answers| == i
    requires RunStage(ai, prompts) == StageRun(answers, Some(e))
    requires sent == sent0 + prompts[..i + 1] && step == step0 + i
    ensures StageOutcome(ai, prompts, Failure(e), sent0, sent, step0, step)
  {
  }

  /** A stage all of whose prompts were answered. */
  lemma StageCompleted(ai: Api, prompts: seq<string>, answers: seq<string>,
                       sent0: seq<string>, sent: seq<string>, step0: nat, step: nat)
    requires RunStage(ai, prompts) == StageRun(answers, None)
    requires sent == sent0 + prompts && step == step0 + |prompts|
    ensures StageOutcome(ai, prompts, Success(answers), sent0, sent, step0, step)
  {
    TakeAll(prompts);
  }

  lemma AppendAssoc<T>(a: seq<T>, b: seq<T>, c: seq<T>)
    ensures (a + b) + c == a + (b + c)
  {
  }

  /** A log that extended `base` by the first `i` items of `s` and then got `s[i]`. */
  lemma LogStep<T>(log: seq<T>, prev: seq<T>, base: seq<T>, s: seq<T>, i: nat)
    requires i < |s|
    requires prev == base + s[..i]
    requires log == prev + [s[i]]
    ensures log == base + s[..i + 1]
  {
    assert s[..i + 1] == s[..i] + [s[i]];
    AppendAssoc(base, s[..i], [s[i]]);
  }

  /** A progress log that extended `base` by the reports up to step `mid` and then got step `to`. */
  lemma ReportStep(log: seq<real>, prev: seq<real>, base: seq<real>, from: nat, mid: nat, to: nat, total: nat)
    requires total > 0 && from <= mid && to == mid + 1
    requires prev == base + Reports(from, mid, total)
    requires log == prev + [ProgressValue(to, total)]
    ensures log == base + Reports(from, to, total)
  {
    ReportsSnoc(from, mid, total);
    AppendAssoc(base, Reports(from, mid, total), [ProgressValue(to, total)]);
  }

  /** A progress log holding the reports of steps 1..s1 that then got those of s1+1..s2. */
  lemma ExtendReports(log: seq<real>, mid: seq<real>, base: seq<real>, s1: nat, s2: nat, total: nat)
    requires total > 0 && s1 <= s2
    requires mid == base + Reports(0, s1, total)
    requires log == mid + Reports(s1, s2, total)
    ensures log == base + Reports(0, s2, total)
  {
    ReportsAppend(0, s1, s2, total);
    AppendAssoc(base, Reports(0, s1, total), Reports(s1, s2, total));
  }

  lemma TakeTake<T>(s: seq<T>, i: nat, j: nat)
    requires i <= j <= |s|
    ensures s[..j][..i] == s[..i]
  {
  }

  lemma TakeAll<T>(s: seq<T>)
    ensures s[..|s|] == s
  {
  }

  lemma ReportsSnoc(from: nat, to: nat, total: nat)
    requires from <= to && total > 0
    ensures Reports(from, to + 1, total) == Reports(from, to, total) + [ProgressValue(to + 1, total)]
  {
  }

  lemma ReportsAppend(a: nat, b: nat, c: nat, total: nat)
    requires a <= b <= c && total > 0
    ensures Reports(a, b, total) + Reports(b, c, total) == Reports(a, c, total)
  {
  }

  // ---------------------------------------------------------------------
  // The pipeline as the source runs it
  // ---------------------------------------------------------------------

  /** One invocation of `processPDF`. `sent` records every prompt sent to the
      completion service and `reported` every value passed to `onProgress`;
      `currentStep` and `totalSteps` are the variables captured by the
      `updateProgress` closure. */
  class Processor {
    const ai: Api
    var sent: seq<string>
    var reported: seq<real>
    var currentStep: nat
    var totalSteps: nat

    constructor (ai: Api)
      ensures this.ai == ai
      ensures sent == [] && reported == [] && currentStep == 0 && totalSteps == 0
    {
      this.ai := ai;
      sent, reported := [], [];
      currentStep, totalSteps := 0, 0;
    }

    /** The end-to-end run: extraction, then the reduction stages. */
    method ProcessPDF(pages: seq<seq<string>>) returns (r: Result<ProcessedContent, Thrown>)
      modifies this`sent, this`reported, this`currentStep, this`totalSteps
      ensures r == Hierarchy(ai, Chunks(pages)).result
      ensures reported == old(reported) + RunReports(ai, pages)
    {
      var chunks := ExtractTextFromPDF(pages);
      r := ProcessHierarchically(chunks);
      AppendAssoc(old(reported), ExtractionReports(|pages|), Reports(0, Hierarchy(ai, Chunks(pages)).steps, |pages| + 3));
    }

    /** One chunk per page, in page order, with a progress report after each page. */
    method ExtractTextFromPDF(pages: seq<seq<string>>) returns (chunks: seq<ContentChunk>)
      modifies this`reported
      ensures |chunks| == |pages|
      ensures forall i :: 0 <= i < |pages| ==>
        chunks[i].text == Join(pages[i], " ") && chunks[i].metadata.page == i + 1
      ensures chunks == Chunks(pages)
      ensures reported == old(reported) + ExtractionReports(|pages|)
    {
      chunks := [];
      var i := 1;
      while i <= |pages|
        invariant 1 <= i <= |pages| + 1
        invariant chunks == Chunks(pages)[..i - 1]
        invariant reported == old(reported) + ExtractionReports(|pages|)[..i - 1]
      {
        var text := Join(pages[i - 1], " ");
        chunks := chunks + [ContentChunk(text, Metadata(i))];
        reported := reported + [(i as real / |pages| as real) * EXTRACTION_SHARE];
        i := i + 1;
      }
      assert Chunks(pages)[..|pages|] == Chunks(pages);
      assert ExtractionReports(|pages|)[..|pages|] == ExtractionReports(|pages|);
    }

    /** The `updateProgress` closure. */
    method UpdateProgress()
      requires totalSteps > 0
      modifies this`currentStep, this`reported
      ensures currentStep == old(currentStep) + 1
      ensures reported == old(reported) + [ProgressValue(currentStep, totalSteps)]
    {
      currentStep := currentStep + 1;
      reported := reported + [EXTRACTION_SHARE + (currentStep as real / totalSteps as real) * PROCESSING_SHARE];
    }

    /** One completion request; a prompt that cannot be built is never sent. */
    method ProcessWithAI(text: string, kind: PromptType, metadata: Option<Metadata>) returns (r: Result<string, Thrown>)
      modifies this`sent
      ensures GeneratePrompt(text, kind, metadata).Failure? ==>
        r == Failure(TypeError) && sent == old(sent)
      ensures GeneratePrompt(text, kind, metadata).Success? ==>
        var prompt := GeneratePrompt(text, kind, metadata).value;
        r == Complete(ai, prompt) && sent == old(sent) + [prompt]
    {
      var prompt :- GeneratePrompt(text, kind, metadata);
      sent := sent + [prompt];
      var response := ai(prompt);
      match response
      case Raised(body) =>
        r := Failure(ApiError(body));
      case Answered(content) =>
        r := Success(content.GetOr(""));
    }

    method ProcessHierarchically(chunks: seq<ContentChunk>) returns (r: Result<ProcessedContent, Thrown>)
      modifies this`sent, this`reported, this`currentStep, this`totalSteps
      ensures totalSteps == |chunks| + 3
      ensures r == Hierarchy(ai, chunks).result
      ensures currentStep == Hierarchy(ai, chunks).steps
      ensures reported == old(reported) + Reports(0, Hierarchy(ai, chunks).steps, totalSteps)
    {
      totalSteps := |chunks| + 3;
      currentStep := 0;
      ghost var reported0 := reported;
      var base :- ProcessBaseSummaries(chunks);
      ghost var reported1, steps1 := reported, currentStep;
      var sectionsOutcome := ProcessSectionSummaries(base);
      ExtendReports(reported, reported1, reported0, steps1, currentStep, totalSteps);
      var sections :- sectionsOutcome;
      ghost var reported2, steps2 := reported, currentStep;
      var chaptersOutcome := ProcessChapterSummaries(sections);
      ExtendReports(reported, reported2, reported0, steps2, currentStep, totalSteps);
      var chapters :- chaptersOutcome;
      ghost var reported3, steps3 := reported, currentStep;
      var executive :- CreateExecutiveSummary(chapters);
      UpdateProgress();
      ReportStep(reported, reported3, reported0, 0, steps3, currentStep, totalSteps);
      r := Success(ProcessedContent(base, sections, chapters, executive, KnowledgeBase(map[], [], [])));
    }

    /** One pass of the base loop: summarise chunk `i`, and count the step
        when the summary came back. */
    method SummarizeChunk(chunks: seq<ContentChunk>, i: nat) returns (r: Result<string, Thrown>)
      requires i < |chunks| && totalSteps > 0
      modifies this`sent, this`reported, this`currentStep
      ensures r == Complete(ai, BasePrompts(chunks)[i])
      ensures sent == old(sent) + [BasePrompts(chunks)[i]]
      ensures r.Success? ==> currentStep == old(currentStep) + 1 && reported == old(reported) + [ProgressValue(currentStep, totalSteps)]
      ensures r.Failure? ==> currentStep == old(currentStep) && reported == old(reported)
    {
      var chunk := chunks[i];
      r := ProcessWithAI(chunk.text, BaseSummary, Some(chunk.metadata));
      if r.Success? {
        UpdateProgress();
      }
    }

    /** One pass of the section or chapter loop: summarise the group starting at
        item `i`, which is group `k`, and count the step when the summary came back. */
    method SummarizeGroup(items: seq<string>, kind: PromptType, i: nat, ghost k: nat) returns (r: Result<string, Thrown>)
      requires kind != BaseSummary && i == 3 * k && i < |items| && totalSteps > 0
      modifies this`sent, this`reported, this`currentStep
      ensures k < |GroupPrompts(items, kind)|
      ensures r == Complete(ai, GroupPrompts(items, kind)[k])
      ensures sent == old(sent) + [GroupPrompts(items, kind)[k]]
      ensures r.Success? ==> currentStep == old(currentStep) + 1 && reported == old(reported) + [ProgressValue(currentStep, totalSteps)]
      ensures r.Failure? ==> currentStep == old(currentStep) && reported == old(reported)
    {
      var group := items[i .. Min(i + 3, |items|)];
      GroupPromptAt(items, kind, i, k);
      r := ProcessWithAI(Join(group, SEPARATOR), kind, None);
      if r.Success? {
        UpdateProgress();
      }
    }

    method ProcessBaseSummaries(chunks: seq<ContentChunk>) returns (r: Result<seq<string>, Thrown>)
      requires totalSteps > 0
      modifies this`sent, this`reported, this`currentStep
      ensures StageOutcome(ai, BasePrompts(chunks), r, old(sent), sent, old(currentStep), currentStep)
      ensures reported == old(reported) + Reports(old(currentStep), currentStep, totalSteps)
      ensures r.Success? ==> sent == old(sent) + BasePrompts(chunks)
    {
      ghost var prompts := BasePrompts(chunks);
      var summaries := [];
      var i := 0;
      while i < |chunks|
        invariant 0 <= i <= |chunks|
        invariant RunStage(ai, prompts[..i]) == StageRun(summaries, None)
        invariant sent == old(sent) + prompts[..i]
        invariant currentStep == old(currentStep) + i
        invariant reported == old(reported) + Reports(old(currentStep), currentStep, totalSteps)
      {
        ghost var sentBefore, reportedBefore, stepBefore := sent, reported, currentStep;
        var summary := SummarizeChunk(chunks, i);
        RunStageStep(ai, prompts, i, summaries);
        LogStep(sent, sentBefore, old(sent), prompts, i);
        if summary.Failure? {
          StageStopped(ai, prompts, i, summaries, summary.error, old(sent), sent, old(currentStep), currentStep);
          r := Failure(summary.error);
          return;
        }
        summaries := summaries + [summary.value];
        ReportStep(reported, reportedBefore, old(reported), old(currentStep), stepBefore, currentStep, totalSteps);
        i := i + 1;
      }
      TakeAll(prompts);
      assert RunStage(ai, prompts) == StageRun(summaries, None);
      StageCompleted(ai, prompts, summaries, old(sent), sent, old(currentStep), currentStep);
      r := Success(summaries);
    }

    method ProcessSectionSummaries(baseSummaries: seq<string>) returns (r: Result<seq<string>, Thrown>)
      requires totalSteps > 0
      modifies this`sent, this`reported, this`currentStep
      ensures StageOutcome(ai, GroupPrompts(baseSummaries, SectionSummary), r, old(sent), sent, old(currentStep), currentStep)
      ensures reported == old(reported) + Reports(old(currentStep), currentStep, totalSteps)
      ensures r.Success? ==> sent == old(sent) + GroupPrompts(baseSummaries, SectionSummary)
    {
      r := ProcessGroups(baseSummaries, SectionSummary);
    }

    method ProcessChapterSummaries(sectionSummaries: seq<string>) returns (r: Result<seq<string>, Thrown>)
      requires totalSteps > 0
      modifies this`sent, this`reported, this`currentStep
      ensures StageOutcome(ai, GroupPrompts(sectionSummaries, ChapterSummary), r, old(sent), sent, old(currentStep), currentStep)
      ensures reported == old(reported) + Reports(old(currentStep), currentStep, totalSteps)
      ensures r.Success? ==> sent == old(sent) + GroupPrompts(sectionSummaries, ChapterSummary)
    {
      r := ProcessGroups(sectionSummaries, ChapterSummary);
    }

    /** The loop shared by the section and chapter stages: `slice(i, i + 3)`
        joined with a blank line, for i = 0, 3, 6, ... */
    method ProcessGroups(items: seq<string>, kind: PromptType) returns (r: Result<seq<string>, Thrown>)
      requires totalSteps > 0
      requires kind != BaseSummary
      modifies this`sent, this`reported, this`currentStep
      ensures StageOutcome(ai, GroupPrompts(items, kind), r, old(sent), sent, old(currentStep), currentStep)
      ensures reported == old(reported) + Reports(old(currentStep), currentStep, totalSteps)
      ensures r.Success? ==> sent == old(sent) + GroupPrompts(items, kind)
    {
      ghost var prompts := GroupPrompts(items, kind);
      var summaries := [];
      var i := 0;
      ghost var k := 0;
      while i < |items|
        invariant i == 3 * k && k <= |prompts|
        invariant RunStage(ai, prompts[..k]) == StageRun(summaries, None)
        invariant sent == old(sent) + prompts[..k]
        invariant currentStep == old(currentStep) + k
        invariant reported == old(reported) + Reports(old(currentStep), currentStep, totalSteps)
      {
        ghost var sentBefore, reportedBefore, stepBefore := sent, reported, currentStep;
        var summary := SummarizeGroup(items, kind, i, k);
        RunStageStep(ai, prompts, k, summaries);
        LogStep(sent, sentBefore, old(sent), prompts, k);
        if summary.Failure? {
          StageStopped(ai, prompts, k, summaries, summary.error, old(sent), sent, old(currentStep), currentStep);
          r := Failure(summary.error);
          return;
        }
        summaries := summaries + [summary.value];
        ReportStep(reported, reportedBefore, old(reported), old(currentStep), stepBefore, currentStep, totalSteps);
        i, k := i + 3, k + 1;
      }
      GroupExists(|items|, k);
      assert k == |prompts|;
      TakeAll(prompts);
      assert RunStage(ai, prompts) == StageRun(summaries, None);
      StageCompleted(ai, prompts, summaries, old(sent), sent, old(currentStep), currentStep);
      r := Success(summaries);
    }

    method CreateExecutiveSummary(chapterSummaries: seq<string>) returns (r: Result<string, Thrown>)
      modifies this`sent
      ensures r == Complete(ai, ExecutivePrompt(chapterSummaries))
      ensures sent == old(sent) + [ExecutivePrompt(chapterSummaries)]
    {
      r := ProcessWithAI(Join(chapterSummaries, SEPARATOR), ExecutiveSummary, None);
    }
  }
}
