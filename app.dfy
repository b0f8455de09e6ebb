/** The upload state machine of `src/App.tsx`: the four pieces of state the
    page keeps, the transitions `handleFileUpload` makes through them, the
    error classification, and which view the page shows. */
module App {
  import opened Wrappers
  import opened PdfProcessor
  import opened PdfProcessorFacts

  const HIGH_DEMAND := "We're experiencing high demand. Please try again in a few minutes."
  const GENERIC_FAILURE := "An error occurred while processing the PDF. Please try again."

  /** `Math.min(p, 100)`: what the progress callback stores. */
  function Clamp(p: real): (r: real)
    ensures r <= 100.0 && r <= p
    ensures r == p || r == 100.0
  {
    if p <= 100.0 then p else 100.0
  }

  function Clamped(s: seq<real>): (r: seq<real>)
    ensures |r| == |s|
    ensures forall i :: 0 <= i < |s| ==> r[i] == Clamp(s[i])
  {
    seq(|s|, i requires 0 <= i < |s| => Clamp(s[i]))
  }

  /** The error whose `error` object has type 'tokens' and code
      'rate_limit_exceeded'. */
  predicate RateLimited(e: Thrown) {
    e.ApiError? && e.body.Some? && e.body.value.kind == Some("tokens")
    && e.body.value.code == Some("rate_limit_exceeded")
  }

  /** The message shown for a failed upload. */
  function ErrorMessage(e: Thrown): (m: string)
    ensures m == HIGH_DEMAND <==> RateLimited(e)
    ensures m == GENERIC_FAILURE <==> !RateLimited(e)
  {
    match e
    case ApiError(Some(body)) =>
      if body.kind == Some("tokens") && body.code == Some("rate_limit_exceeded") then HIGH_DEMAND
      else GENERIC_FAILURE
    case _ => GENERIC_FAILURE
  }

  /** What the main panel shows. */
  datatype Screen = Loading(progress: real) | ErrorNotice(message: string) | Notes(content: ProcessedContent) | Placeholder

  /** The nested conditional of the page: loading first, then the error,
      then the notes, then the placeholder. */
  function View(isLoading: bool, progress: real, error: Option<string>, content: Option<ProcessedContent>): (v: Screen)
    ensures v.Loading? <==> isLoading
    ensures v.Loading? ==> v.progress == progress
    ensures v.ErrorNotice? <==> !isLoading && error.Some?
    ensures v.ErrorNotice? ==> v.message == error.value
    ensures v.Notes? <==> !isLoading && error.None? && content.Some?
    ensures v.Notes? ==> v.content == content.value
    ensures v.Placeholder? <==> !isLoading && error.None? && content.None?
  {
    if isLoading then Loading(progress)
    else if error.Some? then ErrorNotice(error.value)
    else if content.Some? then Notes(content.value)
    else Placeholder
  }

  /** The values the progress bar takes during one upload: 0 at the start,
      each report of the run clamped to 100, and 100 at the end. */
  function Bar(reports: seq<real>): seq<real> {
    [0.0] + Clamped(reports) + [100.0]
  }

  /** The page component. `shown` records every value the progress state was
      set to. */
  class Page {
    var processedContent: Option<ProcessedContent>
    var isLoading: bool
    var progress: real
    var error: Option<string>
    ghost var shown: seq<real>

    /** The progress state never exceeds 100. */
    ghost predicate Valid()
      reads this
    {
      progress <= 100.0 && forall i :: 0 <= i < |shown| ==> shown[i] <= 100.0
    }

    function Screen(): Screen
      reads this
    {
      View(isLoading, progress, error, processedContent)
    }

    constructor ()
      ensures Valid()
      ensures processedContent == None && !isLoading && progress == 0.0 && error == None && shown == []
      ensures Screen() == Placeholder
    {
      processedContent, isLoading, progress, error := None, false, 0.0, None;
      shown := [];
    }

    /** The three setters before the request. */
    method Start()
      requires Valid()
      modifies this`isLoading, this`progress, this`error, this`shown
      ensures Valid()
      ensures isLoading && progress == 0.0 && error == None
      ensures shown == old(shown) + [0.0]
      ensures Screen() == Loading(0.0)
    {
      isLoading := true;
      progress := 0.0;
      shown := shown + [progress];
      error := None;
    }

    /** The progress callback. */
    method OnProgress(p: real)
      requires Valid()
      modifies this`progress, this`shown
      ensures Valid()
      ensures progress == Clamp(p)
      ensures shown == old(shown) + [Clamp(p)]
    {
      progress := Clamp(p);
      shown := shown + [progress];
    }

    method OnSuccess(content: ProcessedContent)
      modifies this`processedContent
      ensures processedContent == Some(content)
    {
      processedContent := Some(content);
    }

    /** The `catch` block: classify the error; the old notes are kept. */
    method OnFailure(e: Thrown)
      modifies this`error
      ensures error == Some(ErrorMessage(e))
    {
      error := Some(ErrorMessage(e));
    }

    /** The `finally` block. */
    method Finally()
      requires Valid()
      modifies this`isLoading, this`progress, this`shown
      ensures Valid()
      ensures !isLoading && progress == 100.0
      ensures shown == old(shown) + [100.0]
    {
      isLoading := false;
      progress := 100.0;
      shown := shown + [progress];
    }

    /** The progress callback, called once for each report in turn. */
    method Replay(reports: seq<real>)
      requires Valid()
      modifies this`progress, this`shown
      ensures Valid()
      ensures shown == old(shown) + Clamped(reports)
    {
      var i := 0;
      while i < |reports|
        invariant 0 <= i <= |reports|
        invariant Valid()
        invariant shown == old(shown) + Clamped(reports[..i])
      {
        OnProgress(reports[i]);
        assert Clamped(reports[..i + 1]) == Clamped(reports[..i]) + [Clamp(reports[i])];
        i := i + 1;
      }
      assert reports[..i] == reports;
    }

    /** What follows the request: the progress reports, then the `try`
        block's outcome, then the `finally` block. */
    method Settle(reports: seq<real>, r: Result<ProcessedContent, Thrown>)
      requires Valid()
      modifies this`processedContent, this`progress, this`error, this`isLoading, this`shown
      ensures Valid()
      ensures !isLoading && progress == 100.0
      ensures r.Success? ==> processedContent == Some(r.value) && error == old(error)
      ensures r.Failure? ==> processedContent == old(processedContent) && error == Some(ErrorMessage(r.error))
      ensures shown == old(shown) + Clamped(reports) + [100.0]
    {
      Replay(reports);
      match r {
        case Success(content) => OnSuccess(content);
        case Failure(e) => OnFailure(e);
      }
      Finally();
    }

    /** One upload of a document whose pages are `pages`, processed with the
        completion service `ai`. The progress callback's calls are replayed in
        the order the run made them. */
    method HandleFileUpload(ai: Api, pages: seq<seq<string>>)
      requires Valid()
      modifies this
      ensures Valid()
      ensures !isLoading && progress == 100.0
      ensures var r := Hierarchy(ai, Chunks(pages)).result;
        && (r.Success? ==> processedContent == Some(r.value) && error == None)
        && (r.Failure? ==> processedContent == old(processedContent) && error == Some(ErrorMessage(r.error)))
      ensures shown == old(shown) + Bar(RunReports(ai, pages))
    {
      ghost var shown0 := shown;
      Start();
      var processor := new Processor(ai);
      var r := processor.ProcessPDF(pages);
      assert processor.reported == RunReports(ai, pages);
      Settle(processor.reported, r);
      AppendThree(shown0, [0.0], Clamped(RunReports(ai, pages)), [100.0]);
    }
  }

  lemma AppendThree<T>(a: seq<T>, b: seq<T>, c: seq<T>, d: seq<T>)
    ensures a + b + c + d == a + (b + c + d)
  {
  }

  // ---------------------------------------------------------------------
  // Properties
  // ---------------------------------------------------------------------

  /** Clamping strictly increasing positive reports, between a 0 and a 100,
      gives a sequence that never decreases and stays between 0 and 100. */
  lemma BarOf(reports: seq<real>)
    requires forall i :: 0 <= i < |reports| ==> 0.0 < reports[i]
    requires forall i, j :: 0 <= i < j < |reports| ==> reports[i] < reports[j]
    ensures forall i :: 0 <= i < |Bar(reports)| ==> 0.0 <= Bar(reports)[i] <= 100.0
    ensures forall i, j :: 0 <= i < j < |Bar(reports)| ==> Bar(reports)[i] <= Bar(reports)[j]
  {
    var bar := Bar(reports);
    assert |bar| == |reports| + 2;
    forall i | 0 <= i < |bar|
      ensures 0.0 <= bar[i] <= 100.0
    {
      if 0 < i < |bar| - 1 {
        assert bar[i] == Clamp(reports[i - 1]);
      }
    }
    forall i, j | 0 <= i < j < |bar|
      ensures bar[i] <= bar[j]
    {
      if 0 < i && j < |bar| - 1 {
        assert bar[i] == Clamp(reports[i - 1]) && bar[j] == Clamp(reports[j - 1]);
      } else if 0 < i {
        assert bar[i] == Clamp(reports[i - 1]);
      } else if j < |bar| - 1 {
        assert bar[j] == Clamp(reports[j - 1]);
      }
    }
  }

  /** During one upload the progress bar never moves backwards and stays
      between 0 and 100. */
  lemma BarMonotone(ai: Api, pages: seq<seq<string>>)
    ensures var bar := Bar(RunReports(ai, pages));
      && (forall i :: 0 <= i < |bar| ==> 0.0 <= bar[i] <= 100.0)
      && (forall i, j :: 0 <= i < j < |bar| ==> bar[i] <= bar[j])
  {
    RunReportsIncrease(ai, pages);
    RunReportsPositive(ai, pages);
    BarOf(RunReports(ai, pages));
  }

  /** Every value a run reports is positive. */
  lemma RunReportsPositive(ai: Api, pages: seq<seq<string>>)
    ensures forall i :: 0 <= i < |RunReports(ai, pages)| ==> 0.0 < RunReports(ai, pages)[i]
  {
    var n := |pages|;
    var steps := Hierarchy(ai, Chunks(pages)).steps;
    ExtractionProgress(n);
    ReportsIncrease(0, steps, n + 3);
    var e, p := ExtractionReports(n), Reports(0, steps, n + 3);
    forall i | 0 <= i < |e + p|
      ensures 0.0 < (e + p)[i]
    {
      if i >= n {
        assert (e + p)[i] == p[i - n];
      }
    }
  }

  /** After an upload the page shows the new notes on success and the
      classified error on failure, never notes left from an earlier upload. */
  lemma ScreenAfterUpload(r: Result<ProcessedContent, Thrown>, previous: Option<ProcessedContent>)
    ensures var content := if r.Success? then Some(r.value) else previous;
      var error := if r.Success? then None else Some(ErrorMessage(r.error));
      View(false, 100.0, error, content) ==
        if r.Success? then Notes(r.value) else ErrorNotice(ErrorMessage(r.error))
  {
  }
}
