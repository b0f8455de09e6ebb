/** What the reduction pipeline of `src/utils/pdfProcessor.ts` guarantees:
    page numbering, grouping, prompts, the outcome of a run, and the
    progress values it reports. */
module PdfProcessorFacts {
  import opened Wrappers
  import opened Text
  import opened PdfProcessor

  // ---------------------------------------------------------------------
  // Extraction
  // ---------------------------------------------------------------------

  /** One chunk per page, in order: chunk i is page i + 1, its fragments
      joined with a single space. */
  lemma ChunkNumbering(pages: seq<seq<string>>)
    ensures |Chunks(pages)| == |pages|
    ensures forall i :: 0 <= i < |pages| ==>
      Chunks(pages)[i] == ContentChunk(Join(pages[i], " "), Metadata(i + 1))
    ensures forall i, j :: 0 <= i < j < |pages| ==>
      Chunks(pages)[i].metadata.page < Chunks(pages)[j].metadata.page
  {
  }

  lemma ExtractionMonotone(i: nat, j: nat, n: nat)
    requires i < j <= n
    ensures ExtractionValue(i, n) < ExtractionValue(j, n)
  {
    assert i as real / n as real < j as real / n as real;
  }

  lemma ExtractionBounds(i: nat, n: nat)
    requires 0 < i <= n
    ensures 0.0 < ExtractionValue(i, n) <= EXTRACTION_SHARE
    ensures i == n ==> ExtractionValue(i, n) == EXTRACTION_SHARE
  {
    assert n as real / n as real == 1.0;
    if i < n {
      ExtractionMonotone(i, n, n);
    }
  }

  /** Extraction reports one value per page: strictly increasing, positive,
      at most 20, and exactly 20 after the last page; no page, no report. */
  lemma ExtractionProgress(n: nat)
    ensures |ExtractionReports(n)| == n
    ensures forall i, j :: 0 <= i < j < n ==> ExtractionReports(n)[i] < ExtractionReports(n)[j]
    ensures forall i :: 0 <= i < n ==> 0.0 < ExtractionReports(n)[i] <= EXTRACTION_SHARE
    ensures n > 0 ==> ExtractionReports(n)[n - 1] == EXTRACTION_SHARE
  {
    forall i, j | 0 <= i < j < n
      ensures ExtractionReports(n)[i] < ExtractionReports(n)[j]
    {
      ExtractionMonotone(i + 1, j + 1, n);
    }
    forall i | 0 <= i < n
      ensures 0.0 < ExtractionReports(n)[i] <= EXTRACTION_SHARE
    {
      ExtractionBounds(i + 1, n);
    }
    if n > 0 {
      ExtractionBounds(n, n);
    }
  }

  // ---------------------------------------------------------------------
  // Grouping
  // ---------------------------------------------------------------------

  function Flatten(gs: seq<seq<string>>): seq<string> {
    if gs == [] then [] else gs[0] + Flatten(gs[1..])
  }

  /** The groups cover the list exactly, in order, without overlap. */
  lemma {:induction false} GroupsFlatten(s: seq<string>)
    ensures Flatten(Groups(s)) == s
    decreases |s|
  {
    if |s| > 3 {
      GroupsFlatten(s[3..]);
      var gs := [s[..3]] + Groups(s[3..]);
      assert gs[0] == s[..3] && gs[1..] == Groups(s[3..]);
      assert s == s[..3] + s[3..];
    } else if |s| > 0 {
      var gs := [s];
      assert gs[1..] == [];
    }
  }

  /** Group k holds three items, except the last, which holds the rest. */
  lemma GroupSize(s: seq<string>, k: nat)
    requires k < |Groups(s)|
    ensures |Groups(s)[k]| == Min(3, |s| - 3 * k)
    ensures k + 1 < |Groups(s)| ==> |Groups(s)[k]| == 3
  {
    GroupAt(s, k);
    GroupExists(|s|, k + 1);
  }

  /** Seven items make groups of sizes 3, 3 and 1. */
  lemma SevenItems(s: seq<string>)
    requires |s| == 7
    ensures |Groups(s)| == 3
    ensures |Groups(s)[0]| == 3 && |Groups(s)[1]| == 3 && |Groups(s)[2]| == 1
    ensures Groups(s)[2] == [s[6]]
  {
    GroupSize(s, 0);
    GroupSize(s, 1);
    GroupSize(s, 2);
    GroupAt(s, 2);
  }

  /** Summaries are joined with exactly one blank line between them. */
  lemma JoinExample()
    ensures Join(["a", "b", "c"], SEPARATOR) == "a\n\nb\n\nc"
  {
    assert ["a", "b", "c"][..2] == ["a", "b"];
    assert ["a", "b"][..1] == ["a"];
  }

  // ---------------------------------------------------------------------
  // Prompts
  // ---------------------------------------------------------------------

  /** The exact template of every prompt type. */
  lemma PromptTemplates(text: string, page: nat, name: string)
    requires name !in {"base_summary", "section_summary", "chapter_summary", "executive_summary"}
    ensures GeneratePrompt(text, BaseSummary, Some(Metadata(page))) ==
      Success("Summarize the following text from page " + NatToString(page) + ":\n\n" + text)
    ensures GeneratePrompt(text, SectionSummary, None) ==
      Success("Create a concise summary of the following section:\n\n" + text)
    ensures GeneratePrompt(text, ChapterSummary, None) ==
      Success("Provide a comprehensive summary of this chapter:\n\n" + text)
    ensures GeneratePrompt(text, ExecutiveSummary, None) ==
      Success("Create an executive summary of the entire document based on these chapter summaries:\n\n" + text)
    ensures GeneratePrompt(text, Other(name), None) ==
      Success("Summarize the following text:\n\n" + text)
  {
  }

  /** The base prompt of page 3 with text "Hello". */
  lemma BasePromptExample()
    ensures BasePrompt(ContentChunk("Hello", Metadata(3))) ==
      "Summarize the following text from page 3:\n\nHello"
  {
    assert NatToString(3) == "3";
    assert BasePrompt(ContentChunk("Hello", Metadata(3))) == BASE_INTRO + "3" + ":\n\n" + "Hello";
  }

  /** With no chapters the executive prompt is the bare instruction. */
  lemma ExecutivePromptOfNothing()
    ensures ExecutivePrompt([]) ==
      "Create an executive summary of the entire document based on these chapter summaries:\n\n"
  {
  }

  /** The base prompts name each chunk's page, in chunk order. */
  lemma BasePromptAt(chunks: seq<ContentChunk>, i: nat)
    requires i < |chunks|
    ensures BasePrompts(chunks)[i] ==
      "Summarize the following text from page " + NatToString(chunks[i].metadata.page) + ":\n\n" + chunks[i].text
  {
  }

  /** Group prompt k summarises items [3k, 3k + 3) joined with a blank line. */
  lemma GroupPromptIs(items: seq<string>, kind: PromptType, k: nat)
    requires kind != BaseSummary && k < CeilThird(|items|)
    ensures GroupPrompts(items, kind)[k] ==
      GeneratePrompt(Join(items[3 * k .. Min(3 * k + 3, |items|)], SEPARATOR), kind, None).value
  {
    GroupExists(|items|, k);
    GroupPromptAt(items, kind, 3 * k, k);
  }

  // ---------------------------------------------------------------------
  // One stage
  // ---------------------------------------------------------------------

  /** A stage's answers are the replies to its first prompts, in order; it
      fails exactly when some prompt raises, and then with the error of the
      first prompt that raised. */
  lemma {:induction false} RunStageAnswers(ai: Api, prompts: seq<string>)
    ensures var o := RunStage(ai, prompts);
      && (forall i :: 0 <= i < |o.answers| ==> Complete(ai, prompts[i]) == Success(o.answers[i]))
      && (o.failure.Some? ==>
            |o.answers| < |prompts| && Complete(ai, prompts[|o.answers|]) == Failure(o.failure.value))
      && (o.failure.None? <==> forall i :: 0 <= i < |prompts| ==> ai(prompts[i]).Answered?)
    decreases |prompts|
  {
    if |prompts| > 0 {
      var front := prompts[..|prompts| - 1];
      RunStageAnswers(ai, front);
      var o := RunStage(ai, front);
      assert forall i :: 0 <= i < |front| ==> front[i] == prompts[i];
      if o.failure.Some? {
        var k := |o.answers|;
        assert !ai(prompts[k]).Answered?;
      }
    }
  }

  /** Every prompt in `prompts` was answered rather than raised. */
  predicate AllAnswered(ai: Api, prompts: seq<string>) {
    forall i :: 0 <= i < |prompts| ==> ai(prompts[i]).Answered?
  }

  /** A stage that ran to the end had every prompt answered. */
  lemma StageSucceeded(ai: Api, prompts: seq<string>)
    requires RunStage(ai, prompts).failure.None?
    ensures AllAnswered(ai, prompts)
  {
    RunStageAnswers(ai, prompts);
  }

  lemma AnsweredAppend(ai: Api, a: seq<string>, b: seq<string>)
    requires AllAnswered(ai, a) && AllAnswered(ai, b)
    ensures AllAnswered(ai, a + b)
  {
  }

  // ---------------------------------------------------------------------
  // A whole run
  // ---------------------------------------------------------------------

  /** How a run ends. A successful run had every prompt it sent answered,
      and the counter advanced once per prompt. A failed run had every
      prompt answered except the last, which raised; the run fails with
      that prompt's error (never a TypeError), and the counter advanced once
      per answer. */
  predicate Settled(ai: Api, run: Run) {
    && (run.result.Success? ==> AllAnswered(ai, run.prompts) && run.steps == |run.prompts|)
    && (run.result.Failure? ==>
          && |run.prompts| > 0
          && AllAnswered(ai, run.prompts[..|run.prompts| - 1])
          && ai(run.prompts[|run.prompts| - 1]).Raised?
          && run.result.error == ApiError(ai(run.prompts[|run.prompts| - 1]).body)
          && run.steps == |run.prompts| - 1)
  }

  /** Answered prompts followed by a stage that failed end a run settled. */
  lemma StageFailed(ai: Api, done: seq<string>, prompts: seq<string>)
    requires AllAnswered(ai, done)
    requires RunStage(ai, prompts).failure.Some?
    ensures var o := RunStage(ai, prompts);
      Settled(ai, Run(Failure(o.failure.value), done + prompts[..o.Sent()], |done| + |o.answers|))
  {
    var o := RunStage(ai, prompts);
    RunStageAnswers(ai, prompts);
    var k := |o.answers|;
    var all := done + prompts[..k + 1];
    assert all[..|all| - 1] == done + prompts[..k];
    assert all[|all| - 1] == prompts[k];
  }

  /** Answered prompts followed by the executive prompt end a run settled. */
  lemma ExecutiveSent(ai: Api, done: seq<string>, last: string, r: Result<ProcessedContent, Thrown>)
    requires AllAnswered(ai, done)
    requires r.Success? <==> ai(last).Answered?
    requires r.Failure? ==> r.error == ApiError(ai(last).body)
    ensures Settled(ai, Run(r, done + [last], |done| + if r.Success? then 1 else 0))
  {
    var all := done + [last];
    assert all[..|all| - 1] == done;
  }

  /** A run whose base stage failed ends settled. */
  lemma BaseStageFailed(ai: Api, chunks: seq<ContentChunk>)
    requires RunStage(ai, BasePrompts(chunks)).failure.Some?
    ensures Settled(ai, Hierarchy(ai, chunks))
  {
    var p1 := BasePrompts(chunks);
    var o := RunStage(ai, p1);
    StageFailed(ai, [], p1);
    assert [] + p1[..o.Sent()] == p1[..o.Sent()];
    assert Hierarchy(ai, chunks) == Run(Failure(o.failure.value), p1[..o.Sent()], |o.answers|);
  }

  /** A run whose section stage failed ends settled. */
  lemma SectionStageFailed(ai: Api, chunks: seq<ContentChunk>, base: seq<string>)
    requires RunStage(ai, BasePrompts(chunks)) == StageRun(base, None)
    requires RunStage(ai, GroupPrompts(base, SectionSummary)).failure.Some?
    ensures Settled(ai, Hierarchy(ai, chunks))
  {
    var p1, p2 := BasePrompts(chunks), GroupPrompts(base, SectionSummary);
    var o := RunStage(ai, p2);
    StageSucceeded(ai, p1);
    StageFailed(ai, p1, p2);
    assert Hierarchy(ai, chunks) == Run(Failure(o.failure.value), p1 + p2[..o.Sent()], |p1| + |o.answers|);
  }

  /** A run whose chapter stage failed ends settled. */
  lemma ChapterStageFailed(ai: Api, chunks: seq<ContentChunk>, base: seq<string>, sections: seq<string>)
    requires RunStage(ai, BasePrompts(chunks)) == StageRun(base, None)
    requires RunStage(ai, GroupPrompts(base, SectionSummary)) == StageRun(sections, None)
    requires RunStage(ai, GroupPrompts(sections, ChapterSummary)).failure.Some?
    ensures Settled(ai, Hierarchy(ai, chunks))
  {
    var p1, p2, p3 := BasePrompts(chunks), GroupPrompts(base, SectionSummary), GroupPrompts(sections, ChapterSummary);
    var o := RunStage(ai, p3);
    StageSucceeded(ai, p1);
    StageSucceeded(ai, p2);
    AnsweredAppend(ai, p1, p2);
    StageFailed(ai, p1 + p2, p3);
    var run := Run(Failure(o.failure.value), p1 + p2 + p3[..o.Sent()], |p1 + p2| + |o.answers|);
    assert Hierarchy(ai, chunks) == run;
  }

  /** A run that reached the executive prompt ends settled. */
  lemma ExecutiveStageReached(ai: Api, chunks: seq<ContentChunk>, base: seq<string>, sections: seq<string>, chapters: seq<string>)
    requires RunStage(ai, BasePrompts(chunks)) == StageRun(base, None)
    requires RunStage(ai, GroupPrompts(base, SectionSummary)) == StageRun(sections, None)
    requires RunStage(ai, GroupPrompts(sections, ChapterSummary)) == StageRun(chapters, None)
    ensures Settled(ai, Hierarchy(ai, chunks))
  {
    var p1, p2, p3 := BasePrompts(chunks), GroupPrompts(base, SectionSummary), GroupPrompts(sections, ChapterSummary);
    var p4 := ExecutivePrompt(chapters);
    StageSucceeded(ai, p1);
    StageSucceeded(ai, p2);
    StageSucceeded(ai, p3);
    AnsweredAppend(ai, p1, p2);
    AnsweredAppend(ai, p1 + p2, p3);
    var run := Hierarchy(ai, chunks);
    assert run.prompts == p1 + p2 + p3 + [p4];
    assert run.steps == |p1 + p2 + p3| + if run.result.Success? then 1 else 0;
    ExecutiveSent(ai, p1 + p2 + p3, p4, run.result);
  }

  /** Every run ends settled. */
  lemma HierarchyOutcome(ai: Api, chunks: seq<ContentChunk>)
    ensures Settled(ai, Hierarchy(ai, chunks))
  {
    var base := RunStage(ai, BasePrompts(chunks));
    if base.failure.Some? {
      BaseStageFailed(ai, chunks);
      return;
    }
    var sections := RunStage(ai, GroupPrompts(base.answers, SectionSummary));
    if sections.failure.Some? {
      SectionStageFailed(ai, chunks, base.answers);
      return;
    }
    var chapters := RunStage(ai, GroupPrompts(sections.answers, ChapterSummary));
    if chapters.failure.Some? {
      ChapterStageFailed(ai, chunks, base.answers, sections.answers);
      return;
    }
    ExecutiveStageReached(ai, chunks, base.answers, sections.answers, chapters.answers);
  }

  /** The number of times the counter advances in a successful run over n
      chunks. */
  function StepsTaken(n: nat): nat {
    n + CeilThird(n) + CeilThird(CeilThird(n)) + 1
  }

  /** A successful run: one base summary per chunk, ceil(n/3) sections,
      ceil(ceil(n/3)/3) chapters, an empty knowledge base, and one step per
      summary. */
  lemma HierarchyShape(ai: Api, chunks: seq<ContentChunk>)
    requires Hierarchy(ai, chunks).result.Success?
    ensures var run := Hierarchy(ai, chunks);
      var c := run.result.value;
      var n := |chunks|;
      && |c.baseSummaries| == n
      && |c.sectionSummaries| == CeilThird(n)
      && |c.chapterSummaries| == CeilThird(CeilThird(n))
      && c.knowledgeBase == KnowledgeBase(map[], [], [])
      && run.steps == StepsTaken(n)
  {
    var p1 := BasePrompts(chunks);
    var p2 := GroupPrompts(RunStage(ai, p1).answers, SectionSummary);
    var p3 := GroupPrompts(RunStage(ai, p2).answers, ChapterSummary);
    assert RunStage(ai, p3).failure.None?;
  }

  /** In a successful run each summary is the answer to its prompt, and the
      prompts were sent stage by stage, the executive prompt once, last. */
  lemma HierarchyAnswers(ai: Api, chunks: seq<ContentChunk>)
    requires Hierarchy(ai, chunks).result.Success?
    ensures var run := Hierarchy(ai, chunks);
      var c := run.result.value;
      && run.prompts == BasePrompts(chunks)
                        + GroupPrompts(c.baseSummaries, SectionSummary)
                        + GroupPrompts(c.sectionSummaries, ChapterSummary)
                        + [ExecutivePrompt(c.chapterSummaries)]
      && (forall i :: 0 <= i < |chunks| ==> Complete(ai, BasePrompts(chunks)[i]) == Success(c.baseSummaries[i]))
      && (forall i :: 0 <= i < |c.sectionSummaries| ==>
            Complete(ai, GroupPrompts(c.baseSummaries, SectionSummary)[i]) == Success(c.sectionSummaries[i]))
      && (forall i :: 0 <= i < |c.chapterSummaries| ==>
            Complete(ai, GroupPrompts(c.sectionSummaries, ChapterSummary)[i]) == Success(c.chapterSummaries[i]))
      && Complete(ai, ExecutivePrompt(c.chapterSummaries)) == Success(c.executiveSummary)
  {
    var p1 := BasePrompts(chunks);
    RunStageAnswers(ai, p1);
    var p2 := GroupPrompts(RunStage(ai, p1).answers, SectionSummary);
    RunStageAnswers(ai, p2);
    var p3 := GroupPrompts(RunStage(ai, p2).answers, ChapterSummary);
    RunStageAnswers(ai, p3);
  }

  // ---------------------------------------------------------------------
  // Progress
  // ---------------------------------------------------------------------

  lemma ProgressMonotone(a: nat, b: nat, total: nat)
    requires a < b && total > 0
    ensures ProgressValue(a, total) < ProgressValue(b, total)
  {
    assert a as real / total as real < b as real / total as real;
  }

  /** The reported value is 100 exactly when the counter has reached
      `totalSteps`, and above 100 exactly when it has passed it. */
  lemma ProgressFull(step: nat, total: nat)
    requires total > 0
    ensures ProgressValue(step, total) == 100.0 <==> step == total
    ensures ProgressValue(step, total) > 100.0 <==> step > total
  {
    if step < total {
      ProgressMonotone(step, total, total);
    } else if step > total {
      ProgressMonotone(total, step, total);
    }
  }

  /** The reports of the reduction stages strictly increase, and each lies
      above every extraction report. */
  lemma ReportsIncrease(from: nat, to: nat, total: nat)
    requires from <= to && total > 0
    ensures forall i, j :: 0 <= i < j < to - from ==> Reports(from, to, total)[i] < Reports(from, to, total)[j]
    ensures forall i :: 0 <= i < to - from ==> EXTRACTION_SHARE < Reports(from, to, total)[i]
  {
    forall i, j | 0 <= i < j < to - from
      ensures Reports(from, to, total)[i] < Reports(from, to, total)[j]
    {
      ProgressMonotone(from + i + 1, from + j + 1, total);
    }
    forall i | 0 <= i < to - from
      ensures EXTRACTION_SHARE < Reports(from, to, total)[i]
    {
      ProgressMonotone(0, from + i + 1, total);
    }
  }

  /** Every value a run passes to `onProgress` is larger than the one before. */
  lemma RunReportsIncrease(ai: Api, pages: seq<seq<string>>)
    ensures forall i, j :: 0 <= i < j < |RunReports(ai, pages)| ==> RunReports(ai, pages)[i] < RunReports(ai, pages)[j]
  {
    var n := |pages|;
    var e := ExtractionReports(n);
    var p := Reports(0, Hierarchy(ai, Chunks(pages)).steps, n + 3);
    ExtractionProgress(n);
    ReportsIncrease(0, Hierarchy(ai, Chunks(pages)).steps, n + 3);
    var rr := e + p;
    forall i, j | 0 <= i < j < |rr|
      ensures rr[i] < rr[j]
    {
      if j < n {
      } else if i < n {
        assert rr[i] == e[i] && rr[j] == p[j - n];
      } else {
        assert rr[i] == p[i - n] && rr[j] == p[j - n];
      }
    }
  }

  /** The steps a successful run takes against the `totalSteps` of n + 3
      they are divided by. */
  lemma StepsAgainstTotal(n: nat)
    ensures StepsTaken(n) == n + 3 <==> 1 <= n <= 3
    ensures n == 0 ==> StepsTaken(n) == 1
    ensures n >= 4 ==> StepsTaken(n) > n + 3
  {
    if n >= 4 {
      assert CeilThird(n) >= 2;
      assert CeilThird(CeilThird(n)) >= 1;
    }
  }

  /** The value reported after the last step: 100 only for one to three
      chunks; 20 + 80/3 for none; above 100 for four or more. */
  lemma FinalValue(n: nat)
    ensures ProgressValue(StepsTaken(n), n + 3) == 100.0 <==> 1 <= n <= 3
    ensures n == 0 ==> ProgressValue(StepsTaken(n), n + 3) == 20.0 + 80.0 / 3.0
    ensures n >= 4 ==> ProgressValue(StepsTaken(n), n + 3) > 100.0
  {
    StepsAgainstTotal(n);
    ProgressFull(StepsTaken(n), n + 3);
  }

  /** The last of a run's reports is that of its last step. */
  lemma LastReport(e: seq<real>, steps: nat, total: nat)
    requires steps > 0 && total > 0
    ensures |e + Reports(0, steps, total)| == |e| + steps
    ensures (e + Reports(0, steps, total))[|e| + steps - 1] == ProgressValue(steps, total)
  {
  }

  /** The last value a successful run reports is 100 only for one to three
      pages; with no page it is 20 + 80/3, with four or more above 100. */
  lemma FinalProgress(ai: Api, pages: seq<seq<string>>)
    requires Hierarchy(ai, Chunks(pages)).result.Success?
    ensures |RunReports(ai, pages)| == |pages| + StepsTaken(|pages|)
    ensures Last(RunReports(ai, pages)) == ProgressValue(StepsTaken(|pages|), |pages| + 3)
    ensures Last(RunReports(ai, pages)) == 100.0 <==> 1 <= |pages| <= 3
    ensures |pages| == 0 ==> Last(RunReports(ai, pages)) == 20.0 + 80.0 / 3.0
    ensures |pages| >= 4 ==> Last(RunReports(ai, pages)) > 100.0
  {
    var n := |pages|;
    HierarchyShape(ai, Chunks(pages));
    var steps := Hierarchy(ai, Chunks(pages)).steps;
    FinalReports(ExtractionReports(n), n, steps, RunReports(ai, pages));
  }

  /** The last element of a non-empty sequence. */
  function Last(s: seq<real>): real
    requires |s| > 0
  {
    s[|s| - 1]
  }

  /** The extraction reports followed by those of a successful run's steps. */
  lemma FinalReports(e: seq<real>, n: nat, steps: nat, rr: seq<real>)
    requires |e| == n && steps == StepsTaken(n) && rr == e + Reports(0, steps, n + 3)
    ensures |rr| == n + StepsTaken(n)
    ensures Last(rr) == ProgressValue(StepsTaken(n), n + 3)
    ensures Last(rr) == 100.0 <==> 1 <= n <= 3
    ensures n == 0 ==> Last(rr) == 20.0 + 80.0 / 3.0
    ensures n >= 4 ==> Last(rr) > 100.0
  {
    LastReport(e, steps, n + 3);
    assert Last(rr) == ProgressValue(steps, n + 3);
    FinalValue(n);
  }

  /** Ten pages: 10 base summaries, 4 sections, 2 chapters, 17 steps
      against a total of 13, ending at 20 + (17 / 13) * 80, above 100. */
  lemma TenPages(ai: Api, pages: seq<seq<string>>)
    requires |pages| == 10 && Hierarchy(ai, Chunks(pages)).result.Success?
    ensures var c := Hierarchy(ai, Chunks(pages)).result.value;
      |c.baseSummaries| == 10 && |c.sectionSummaries| == 4 && |c.chapterSummaries| == 2
    ensures Hierarchy(ai, Chunks(pages)).steps == 17
    ensures var rr := RunReports(ai, pages);
      |rr| == 27 && rr[26] == ProgressValue(17, 13) && rr[26] > 100.0
  {
    HierarchyShape(ai, Chunks(pages));
    FinalProgress(ai, pages);
    assert CeilThird(10) == 4 && CeilThird(4) == 2 && StepsTaken(10) == 17;
  }
}
