# ai-tutor: interactive notes from a PDF, modelled in Dafny

The application turns an uploaded PDF into study notes in four steps:

1. It reads the text of each page.
2. It summarises every page with a language model (base summaries).
3. It summarises consecutive groups of at most three base summaries (section summaries). It then groups the sections the same way (chapter summaries).
4. It writes one executive summary over all chapters.

A step counter drives a progress percentage. The page component keeps four pieces of state while an upload runs. The notes viewer shows one tab per level. Each summary can be expanded, and its text is formatted with a small markdown-like rewriter.

The project models three parts of the application:

- `pdf_processor.dfy` (module `PdfProcessor`) models the reduction pipeline of `src/utils/pdfProcessor.ts`:
  - `Hierarchy` specifies the pipeline as pure functions.
  - The class `Processor` has methods that follow the source's loops (`push`, `i += 3`, the `updateProgress` closure). Each method is proved against that specification.
  - The PDF library is replaced by its output: a list of pages, each a list of text fragments.
  - The completion service is a function `Api` from prompt to reply. A reply carries the first choice's content, or the error the client raises.
- `pdf_processor_facts.dfy` (module `PdfProcessorFacts`) holds the properties of the pipeline:
  - chunk numbering and extraction progress;
  - group counts and group boundaries;
  - the exact prompt strings;
  - how a run ends, on success and on every kind of failure;
  - the progress values, including the fact that the last one is 100 only for documents of one to three pages.
- `app.dfy` (module `App`) models the upload state machine of `src/App.tsx`:
  - the class `Page` with its four state fields and the transitions of `handleFileUpload`;
  - the classification of errors;
  - the precedence of the views.
- `note_display.dfy` (module `NoteDisplay`) models the viewer of `src/components/NoteDisplay.tsx`:
  - the four regular-expression passes of `formatText`, with JavaScript's semantics for `.`, `^` in multiline mode, and lazy leftmost matching;
  - the `toggleSection` map flip;
  - the tabs, the numbered titles and the class `NoteView` holding the component state.
- `text.dfy` (module `Text`) provides `Array.prototype.join` and the decimal rendering of numbers in template literals, with its inverse. `wrappers.dfy` (module `Wrappers`) provides `Option` and `Result`.

Progress values are exact `real` numbers.

## Model

| member | source | states |
|---|---|---|
| Text.NatToString | src/utils/pdfProcessor.ts:138 | The decimal numeral of a page number is non-empty and made of digits only, and it starts with "0" only for the number 0 (no leading zero), as JavaScript writes integers. |
| Text.ParseNatToString | src/utils/pdfProcessor.ts:138 | Reading the numeral back gives the number: the rendering loses nothing. |
| Text.NatToStringInjective | src/components/NoteDisplay.tsx:63-69 | Different numbers render differently, so numbered titles never collide. |
| Text.Join | src/utils/pdfProcessor.ts:47 | `Array.prototype.join`: the parts with the separator between neighbours. Its properties are JoinAppend, JoinLength and PdfProcessorFacts.JoinExample. |
| Text.JoinAppend | src/utils/pdfProcessor.ts:98 | Joining two lists puts exactly one separator between the two joins. |
| Text.JoinLength | src/utils/pdfProcessor.ts:47 | A join has every part once and one separator between neighbours. |
| PdfProcessor.Chunks | src/utils/pdfProcessor.ts:44-48 | One chunk per page: the page's text fragments joined with a space, numbered from 1. Its properties are PdfProcessorFacts.ChunkNumbering and Processor.ExtractTextFromPDF. |
| PdfProcessor.ExtractionValue | src/utils/pdfProcessor.ts:49 | The value reported after page i of n: 20·i/n. Its properties are PdfProcessorFacts.ExtractionMonotone, ExtractionBounds and ExtractionProgress. |
| PdfProcessor.ProgressValue | src/utils/pdfProcessor.ts:61 | The value reported at step k of total: 20 + 80·k/total. Its properties are PdfProcessorFacts.ProgressMonotone and ProgressFull. |
| PdfProcessor.BasePrompt | src/utils/pdfProcessor.ts:86 | The base-summary prompt of a chunk, with its page number and text. Its properties are PdfProcessorFacts.BasePromptExample, BasePromptAt and PromptTemplates. |
| PdfProcessor.ExecutivePrompt | src/utils/pdfProcessor.ts:119 | The executive prompt over the chapter summaries joined with a blank line. Its properties are PdfProcessorFacts.ExecutivePromptOfNothing and ExecutiveSent, and Processor.CreateExecutiveSummary. |
| PdfProcessor.Hierarchy | src/utils/pdfProcessor.ts:55-81 | The run of the three stages and the executive prompt, stopping at the first raise: its result, the prompts sent and the steps counted. Its properties are PdfProcessorFacts.HierarchyOutcome, HierarchyShape and HierarchyAnswers, and Processor.ProcessHierarchically is proved equal to it. |
| PdfProcessor.RunReports | src/utils/pdfProcessor.ts:33-81 | Every value a run passes to `onProgress`: the extraction reports, then one per counted step. Its properties are PdfProcessorFacts.RunReportsIncrease and FinalProgress, and App.RunReportsPositive. |
| PdfProcessor.GeneratePrompt | src/utils/pdfProcessor.ts:135-148 | A prompt fails (as the TypeError of reading `page` from undefined) exactly for a base summary without metadata. Otherwise it ends with the text. |
| PdfProcessor.Complete | src/utils/pdfProcessor.ts:123-133 | A raised client error propagates unchanged. An answer without content becomes the empty string. |
| PdfProcessor.Groups | src/utils/pdfProcessor.ts:96-97 | There are exactly ceil(n/3) groups. |
| PdfProcessor.Group | src/utils/pdfProcessor.ts:97 | Each `slice(i, i + 3)` holds one to three items. |
| PdfProcessor.GroupExists | src/utils/pdfProcessor.ts:96 | The loop `i < length; i += 3` visits group k exactly when k < ceil(n/3). |
| PdfProcessor.GroupAt | src/utils/pdfProcessor.ts:96-97 | Group k of the grouping is the slice starting at 3k. |
| PdfProcessor.BasePrompts | src/utils/pdfProcessor.ts:85-86 | There is one base prompt per chunk. |
| PdfProcessor.GroupPrompts | src/utils/pdfProcessor.ts:96-98 | There is one prompt per group of three. |
| PdfProcessor.GroupPromptAt | src/utils/pdfProcessor.ts:97-98 | The prompt sent at loop index i = 3k is group prompt k: items [3k, 3k+3) joined with a blank line. |
| PdfProcessor.RunStage | src/utils/pdfProcessor.ts:83-92 | A stage sends at most its prompts. If no error occurs, it gets one answer per prompt. |
| PdfProcessor.RunStageStops | src/utils/pdfProcessor.ts:86 | Once a prompt has raised, no later prompt of the stage is sent. |
| PdfProcessor.RunStageStep | src/utils/pdfProcessor.ts:86-87 | Sending the next prompt appends its answer, or stops the stage with its error. |
| PdfProcessor.ReportsAppend | src/utils/pdfProcessor.ts:59-62 | The reports of consecutive counter ranges concatenate. |
| PdfProcessor.Processor.constructor | src/utils/pdfProcessor.ts:56-57 | The counter starts at 0. Nothing has been sent or reported yet. |
| PdfProcessor.Processor.ProcessPDF | src/utils/pdfProcessor.ts:33-37 | The result is the specified run over the pages' chunks. The reported values are the extraction reports followed by those of the stages. |
| PdfProcessor.Processor.ExtractTextFromPDF | src/utils/pdfProcessor.ts:39-53 | There is one chunk per page, in page order. Chunk i has page number i+1 and its fragments joined with one space. Each page reports 20*i/n. |
| PdfProcessor.Processor.UpdateProgress | src/utils/pdfProcessor.ts:59-62 | The counter advances by one and reports 20 + 80*step/total. |
| PdfProcessor.Processor.ProcessWithAI | src/utils/pdfProcessor.ts:123-133 | A prompt that cannot be built is never sent. Otherwise exactly that prompt is sent, and the result is its completion. |
| PdfProcessor.Processor.ProcessHierarchically | src/utils/pdfProcessor.ts:55-81 | `totalSteps` is n + 3. The result and the number of counter steps are those of the specified run, and so is every reported value. |
| PdfProcessor.Processor.SummarizeChunk | src/utils/pdfProcessor.ts:85-88 | One pass of the base loop sends that chunk's prompt. It counts a step only when the prompt is answered. |
| PdfProcessor.Processor.SummarizeGroup | src/utils/pdfProcessor.ts:96-100 | One pass of a grouping loop sends group k's prompt. It counts a step only when the prompt is answered. |
| PdfProcessor.Processor.ProcessBaseSummaries | src/utils/pdfProcessor.ts:83-92 | The summaries are the stage's answers in chunk order. An error stops the stage and propagates. |
| PdfProcessor.Processor.ProcessSectionSummaries | src/utils/pdfProcessor.ts:94-104 | The same holds for the groups of three base summaries. |
| PdfProcessor.Processor.ProcessChapterSummaries | src/utils/pdfProcessor.ts:106-116 | The same holds for the groups of three section summaries. |
| PdfProcessor.Processor.ProcessGroups | src/utils/pdfProcessor.ts:96-103 | The shared `i += 3` loop returns the stage's answers, one per group, or the stage's error. |
| PdfProcessor.Processor.CreateExecutiveSummary | src/utils/pdfProcessor.ts:118-121 | Exactly one prompt is sent: the chapters joined with a blank line. |
| PdfProcessorFacts.ChunkNumbering | src/utils/pdfProcessor.ts:44-48 | Chunk i is page i+1 with its fragments joined by a space. Page numbers strictly increase. |
| PdfProcessorFacts.ExtractionMonotone | src/utils/pdfProcessor.ts:49 | Later pages report larger extraction progress. |
| PdfProcessorFacts.ExtractionBounds | src/utils/pdfProcessor.ts:49 | Extraction progress lies in (0, 20] and is exactly 20 at the last page. |
| PdfProcessorFacts.ExtractionProgress | src/utils/pdfProcessor.ts:44-50 | There is one report per page. The reports strictly increase, lie in (0, 20], and the last is 20. No page means no report. |
| PdfProcessorFacts.GroupsFlatten | src/utils/pdfProcessor.ts:96-97 | Concatenating the groups gives back the list: no item is lost, repeated or reordered. |
| PdfProcessorFacts.GroupSize | src/utils/pdfProcessor.ts:97 | Group k holds min(3, n-3k) items, and three unless it is the last. |
| PdfProcessorFacts.SevenItems | src/utils/pdfProcessor.ts:96-97 | Seven items give groups of sizes 3, 3 and 1. The last group is the seventh item. |
| PdfProcessorFacts.JoinExample | src/utils/pdfProcessor.ts:98 | The separator is exactly one blank line. |
| PdfProcessorFacts.PromptTemplates | src/utils/pdfProcessor.ts:135-148 | Each of the five templates, exactly. |
| PdfProcessorFacts.BasePromptExample | src/utils/pdfProcessor.ts:138 | The base prompt of page 3 with text "Hello", spelled out. |
| PdfProcessorFacts.ExecutivePromptOfNothing | src/utils/pdfProcessor.ts:119 | With no chapters, the executive prompt is still sent, with empty text. |
| PdfProcessorFacts.BasePromptAt | src/utils/pdfProcessor.ts:85-86 | Base prompt i names chunk i's page and carries its text. |
| PdfProcessorFacts.GroupPromptIs | src/utils/pdfProcessor.ts:97-98 | Section or chapter prompt k carries items [3k, 3k+3) joined with a blank line. |
| PdfProcessorFacts.RunStageAnswers | src/utils/pdfProcessor.ts:83-92 | The answers are the replies to the first prompts, in order. On failure, the next prompt raised that error. A stage fails exactly when some prompt raises. |
| PdfProcessorFacts.StageSucceeded | src/utils/pdfProcessor.ts:86 | A stage that completed had every prompt answered. |
| PdfProcessorFacts.AnsweredAppend | src/utils/pdfProcessor.ts:64-66 | Prompts answered in consecutive stages are all answered. |
| PdfProcessorFacts.StageFailed | src/utils/pdfProcessor.ts:64-66 | A failing stage after answered stages ends the run with its error. The prompts sent are those before it plus its prefix up to the failing one. |
| PdfProcessorFacts.ExecutiveSent | src/utils/pdfProcessor.ts:67-68 | The executive prompt is the last sent. Its success counts the final step, and its error ends the run. |
| PdfProcessorFacts.BaseStageFailed | src/utils/pdfProcessor.ts:64 | A run whose base stage fails ends with that error, and no later stage runs. |
| PdfProcessorFacts.SectionStageFailed | src/utils/pdfProcessor.ts:65 | A run whose section stage fails ends with that error after all base prompts were answered. |
| PdfProcessorFacts.ChapterStageFailed | src/utils/pdfProcessor.ts:66 | A run whose chapter stage fails ends with that error after the base and section stages completed. |
| PdfProcessorFacts.ExecutiveStageReached | src/utils/pdfProcessor.ts:67-80 | A run that reaches the executive prompt ends settled, whether that prompt is answered or raises. |
| PdfProcessorFacts.HierarchyOutcome | src/utils/pdfProcessor.ts:55-81 | Every run ends in one of two ways. Either every prompt was answered and the counter advanced once per prompt, or the last prompt sent raised and the run failed with exactly its error. |
| PdfProcessorFacts.HierarchyShape | src/utils/pdfProcessor.ts:56-80 | A successful run has n base summaries, ceil(n/3) sections and ceil(ceil(n/3)/3) chapters. The knowledge base is empty. The counter advances n + ceil(n/3) + ceil(ceil(n/3)/3) + 1 times. |
| PdfProcessorFacts.HierarchyAnswers | src/utils/pdfProcessor.ts:64-80 | In a successful run the prompts are the base, section and chapter prompts, then the executive prompt. Each summary is the answer to its prompt. |
| PdfProcessorFacts.ProgressMonotone | src/utils/pdfProcessor.ts:61 | A later step reports a larger value. |
| PdfProcessorFacts.ProgressFull | src/utils/pdfProcessor.ts:61 | The value is 100 exactly when step == totalSteps, and above 100 exactly when step exceeds it. |
| PdfProcessorFacts.ReportsIncrease | src/utils/pdfProcessor.ts:59-62 | The reports of the stages strictly increase, and each exceeds every extraction value. |
| PdfProcessorFacts.RunReportsIncrease | src/utils/pdfProcessor.ts:33-62 | Every value a whole run passes to `onProgress` is larger than the one before. |
| PdfProcessorFacts.StepsAgainstTotal | src/utils/pdfProcessor.ts:56 | The steps taken equal `totalSteps` = n + 3 exactly for 1 ≤ n ≤ 3. There is 1 step for n = 0, and more than n + 3 steps for n ≥ 4. |
| PdfProcessorFacts.FinalValue | src/utils/pdfProcessor.ts:56-62 | The last value is 100 iff 1 ≤ n ≤ 3. It is 20 + 80/3 for no page and above 100 from four pages on. |
| PdfProcessorFacts.LastReport | src/utils/pdfProcessor.ts:68 | The last report of a run is that of its last step. |
| PdfProcessorFacts.FinalProgress | src/utils/pdfProcessor.ts:33-68 | A successful run reports n + steps values. The last is 100 only for one to three pages, 20 + 80/3 for none, and above 100 from four on. |
| PdfProcessorFacts.TenPages | src/utils/pdfProcessor.ts:56-116 | Ten pages give 10, 4 and 2 summaries and 17 steps against a total of 13. The last of 27 reports is above 100. |
| App.Clamp | src/App.tsx:19 | `Math.min(p, 100)` is at most 100 and at most p, and equals one of them. |
| App.Clamped | src/App.tsx:18-20 | Every report is clamped one by one. |
| App.ErrorMessage | src/App.tsx:24-28 | The high-demand message appears iff the error's `type` is 'tokens' and its `code` is 'rate_limit_exceeded'. The generic message appears otherwise. |
| App.View | src/App.tsx:43-69 | Loading comes first, then the error, then the notes when there are any, then the placeholder. Each view appears exactly under its condition. |
| App.Page.constructor | src/App.tsx:8-11 | No content, not loading, progress 0, no error: the placeholder is shown. |
| App.Page.Start | src/App.tsx:14-16 | Loading is on, progress is 0 and the error is cleared. The loading view at 0 is shown. |
| App.Page.OnProgress | src/App.tsx:18-20 | The stored progress is the clamped report and never exceeds 100. |
| App.Page.OnSuccess | src/App.tsx:21 | The new content replaces the old. |
| App.Page.OnFailure | src/App.tsx:22-28 | The error becomes the classified message. The content is not touched. |
| App.Page.Finally | src/App.tsx:29-32 | Loading is off and progress is 100. |
| App.Page.Replay | src/App.tsx:18-20 | Each report of the run is passed to the callback in order. Each is stored clamped. |
| App.Page.Settle | src/App.tsx:17-32 | The reports, then success or failure, then the `finally` block. |
| App.Page.HandleFileUpload | src/App.tsx:13-33 | Afterwards loading is off and progress is 100. On success the notes are the run's result and there is no error. On failure the old notes stay and the error is the classified message. The progress shown goes 0, the clamped reports, 100. |
| App.Bar | src/App.tsx:13-33 | The values the progress state takes during one upload: 0, each report clamped to 100, then 100. Its properties are BarOf and BarMonotone. |
| App.BarOf | src/App.tsx:14-31 | Clamped increasing positive reports between a 0 and a 100 give a bar that stays within [0, 100] and never moves back. |
| App.BarMonotone | src/App.tsx:13-33 | During an upload the progress bar stays within [0, 100] and never moves back, although the raw reports overshoot 100. |
| App.RunReportsPositive | src/App.tsx:18-20 | Every value passed to the callback is positive. |
| App.ScreenAfterUpload | src/App.tsx:21-31 | After an upload the page shows the new notes on success and the error on failure, never notes from an earlier upload. |
| NoteDisplay.FormatText | src/components/NoteDisplay.tsx:76-82 | Bold, then italic, then list items, then questions. Its properties are FormatTextSplit, FormatTextPlain, BoldBeforeItalic and ListedQuestion. |
| NoteDisplay.Pairs | src/components/NoteDisplay.tsx:78-79 | One global replace of `d(.*?)d` by `<tag>$1</tag>`, matching left to right within a line. Its properties are PairsSplit, PairsPlain, PairsPrefixPlain and PairMatch. |
| NoteDisplay.Bold | src/components/NoteDisplay.tsx:78 | The bold pass, `Pairs` with "**" and `strong`. Its properties are BoldBeforeItalic and ListedItem. |
| NoteDisplay.Italic | src/components/NoteDisplay.tsx:79 | The italic pass, `Pairs` with "*" and `em`. Its properties are ItalicAlone, EmptyEmphasis and BoldBeforeItalic. |
| NoteDisplay.ListLine | src/components/NoteDisplay.tsx:80 | One line: "- x" becomes `<li>x</li>` and other lines are kept. Its properties are ListLineOnly and ListLineItem. |
| NoteDisplay.ListItems | src/components/NoteDisplay.tsx:80 | The list pass applied line by line, with `^` in multiline mode. Its properties are ListItemsPlain, ListLineItem and MapLinesSplit. |
| NoteDisplay.QuestionLine | src/components/NoteDisplay.tsx:81 | One line: from the first marker to the end of the line is wrapped in the question paragraph. Its property is QuestionWrap. |
| NoteDisplay.Questions | src/components/NoteDisplay.tsx:81 | The question pass applied line by line, since `.` stops at a line terminator. Its properties are QuestionsPlain and MapLinesSplit. |
| NoteDisplay.LineEnd | src/components/NoteDisplay.tsx:80-81 | The first line ends at the first line terminator, and it contains none. |
| NoteDisplay.CloseAt | src/components/NoteDisplay.tsx:78-79 | The lazy `(.*?)` stops at the first closing delimiter on the same line. Without one on that line there is no match. |
| NoteDisplay.Find | src/components/NoteDisplay.tsx:81 | The leftmost occurrence of the marker, or none at all. |
| NoteDisplay.LineEndAt | src/components/NoteDisplay.tsx:80 | The line ends wherever the first terminator is found. |
| NoteDisplay.CloseAtSplit | src/components/NoteDisplay.tsx:78-79 | The delimiter search never sees past a line terminator. |
| NoteDisplay.PairsSplit | src/components/NoteDisplay.tsx:78-79 | The bold and italic passes work line by line. |
| NoteDisplay.MapLinesSplit | src/components/NoteDisplay.tsx:80-81 | The list and question passes work line by line. |
| NoteDisplay.FormatTextSplit | src/components/NoteDisplay.tsx:76-82 | No replacement spans a line terminator: the text on each side is formatted separately. |
| NoteDisplay.PairsPlain | src/components/NoteDisplay.tsx:78-79 | Without an asterisk, bold and italic change nothing. |
| NoteDisplay.ListItemsPlain | src/components/NoteDisplay.tsx:80 | Without a line starting with "- ", the list pass changes nothing. |
| NoteDisplay.QuestionsPlain | src/components/NoteDisplay.tsx:81 | Without "Discussion Question:", the question pass changes nothing. |
| NoteDisplay.FormatTextPlain | src/components/NoteDisplay.tsx:76-82 | Text with no asterisk, no line starting with "- " and no marker comes back unchanged. |
| NoteDisplay.CloseAtFirst | src/components/NoteDisplay.tsx:78-79 | The lazy group ends at the first delimiter when nothing before it on the line is an asterisk. |
| NoteDisplay.PairsPrefixPlain | src/components/NoteDisplay.tsx:78-79 | Text without an asterisk before a match is copied as it is. |
| NoteDisplay.PairMatch | src/components/NoteDisplay.tsx:78-79 | `d x d` with x free of asterisks and terminators becomes `<tag>x</tag>`, and matching continues after it. |
| NoteDisplay.BoldBeforeItalic | src/components/NoteDisplay.tsx:78-79 | "**x**" becomes `<strong>x</strong>` and the italic pass leaves it alone. |
| NoteDisplay.ItalicAlone | src/components/NoteDisplay.tsx:79 | The italic pattern alone would turn "**x**" into two empty `<em></em>` pairs around x. This is why the order of the passes matters. |
| NoteDisplay.EmptyEmphasis | src/components/NoteDisplay.tsx:79 | "**" on its own is an empty emphasis for the italic pass. |
| NoteDisplay.ListLineOnly | src/components/NoteDisplay.tsx:80 | A line "- x" becomes `<li>x</li>`. |
| NoteDisplay.ListLineItem | src/components/NoteDisplay.tsx:80 | A "- x" line becomes a list item, and the following lines are handled on their own. |
| NoteDisplay.QuestionWrap | src/components/NoteDisplay.tsx:81 | The marker and the rest of its line are wrapped in the question paragraph. Whatever precedes the marker is kept. |
| NoteDisplay.ListedItem | src/components/NoteDisplay.tsx:78-80 | A listed question line passes bold and italic unchanged and becomes one list item. |
| NoteDisplay.ListedQuestion | src/components/NoteDisplay.tsx:76-82 | In "- Discussion Question: y" the paragraph opens inside the `<li>` and closes after `</li>`. |
| NoteDisplay.Expanded | src/components/NoteDisplay.tsx:20-23 | A title reads as expanded only if it is a key of the map. A title never toggled reads as collapsed. |
| NoteDisplay.Toggle | src/components/NoteDisplay.tsx:13-15 | The new map has the title as a key. The title's flag is flipped and every other key keeps its value. |
| NoteDisplay.ToggleOthers | src/components/NoteDisplay.tsx:14 | Toggling one title leaves every other title as it was. |
| NoteDisplay.ToggleTwice | src/components/NoteDisplay.tsx:13-15 | Toggling twice restores every title's reading. The map itself comes back exactly iff the title was already a key. |
| NoteDisplay.Title | src/components/NoteDisplay.tsx:61-70 | The heading of block i: "Executive Summary", or "Chapter/Section i+1 Summary", or "Detailed Notes i+1". Its properties are FirstChapterTitle, TitlesDistinct and TitlesDistinctAcrossTabs. |
| NoteDisplay.Summaries | src/components/NoteDisplay.tsx:61-70 | Each tab lists its own level: the executive summary alone, or the chapter, section or base summaries. |
| NoteDisplay.FirstChapterTitle | src/components/NoteDisplay.tsx:62-70 | The first chapter is titled "Chapter 1 Summary" and the twelfth page "Detailed Notes 12". |
| NoteDisplay.Render | src/components/NoteDisplay.tsx:17-29 | Block i carries title i. Its body is shown, formatted, exactly when its title is expanded. |
| NoteDisplay.TitlesDistinct | src/components/NoteDisplay.tsx:62-70 | Within a list tab, titles are pairwise different. |
| NoteDisplay.TitlesDistinctAcrossTabs | src/components/NoteDisplay.tsx:61-70 | Titles of different tabs differ. |
| NoteDisplay.ToggleOneBlock | src/components/NoteDisplay.tsx:13-23 | A click on a heading opens or closes that block and no other, on any tab, although all tabs share one map. |
| NoteDisplay.NoteView.constructor | src/components/NoteDisplay.tsx:10-11 | The executive tab is active and nothing is expanded. The panel shows one collapsed "Executive Summary" block. |
| NoteDisplay.NoteView.SelectTab | src/components/NoteDisplay.tsx:34-57 | A tab button makes its tab active, and the panel renders that tab. |
| NoteDisplay.NoteView.ToggleSection | src/components/NoteDisplay.tsx:13-15 | The stored map is the toggled map, so the clicked title flips. |

## Left out

- PDF parsing: pdfjs, the worker URL and `file.arrayBuffer` (src/utils/pdfProcessor.ts:1, 5, 40-46) are foreign library calls. The model starts from the pages' text fragments.
- The completion service: the OpenAI client, the API key, the model name, `temperature` and `max_tokens` (src/utils/pdfProcessor.ts:28-31, 125-130) are a network call. They are replaced by the function `Api`. The first choice of a reply is assumed to exist.
- The one-second `setTimeout` pauses (src/utils/pdfProcessor.ts:89, 101, 113) are wall-clock delays with no effect on any value.
- Floating-point rounding: progress is computed with exact reals. A JavaScript double may differ in the last bits, for example 20 + 80/3.
- `getProcessedContent` (src/utils/pdfProcessor.ts:150-152) only forwards to `processPDF`. `ProcessPDF` models both.
- Concurrency. `App.Page.HandleFileUpload` models one upload at a time. It replays the progress callbacks in the order the run made them, after the run. Overlapping uploads and React's batching of state updates are not modelled.
- `App.Page.HandleFileUpload`: the `error` state is an `Option<string>`. Only the two non-empty messages are ever stored, so JavaScript truthiness and `null` agree with `Some`/`None`.
- `console.error` (src/App.tsx:23) and src/utils/logger.ts only write to the console.
- JSX layout, CSS classes, icons and `dangerouslySetInnerHTML` are not modelled. Rendering is reduced to the choice of view (`App.View`) and to the title, expansion state and formatted body of each block (`NoteDisplay.Render`).
- src/components/FileUpload.tsx is not part of this model. Its only check, the 50 MB size limit on the first dropped file, lives inside the dropzone wrapper.
- `PdfProcessor.Processor.ProcessHierarchically`: the log of prompts sent is stated stage by stage, in the contracts of the stage methods, not for the whole run. The relation between the prompts and the run is proved on the specification instead (`PdfProcessorFacts.HierarchyAnswers`, `PdfProcessorFacts.HierarchyOutcome`).
- `PdfProcessor.Processor.ProcessPDF`: the same applies. Its contract states the result and the progress reports, not the prompt log.
- The comment on `totalSteps` (src/utils/pdfProcessor.ts:56) counts one step per base summary and one for each later stage: section, chapter and executive. The code computes `totalSteps = chunks.length + 3`, but the section and chapter loops call `updateProgress` once per group (src/utils/pdfProcessor.ts:100, 112), so the number of steps taken differs from `totalSteps` except for one to three pages. The model follows the code, and `PdfProcessorFacts.FinalProgress` states what it actually reports. `App.BarMonotone` shows that the page still displays at most 100, because the callback clamps.
- `PdfProcessor.Api`: the completion service is a function of the prompt. Within one run a repeated prompt therefore always gets the same reply, and it either always succeeds or always raises. The real call samples at temperature 0.5 (src/utils/pdfProcessor.ts:128), and its rate-limit failures depend on time. Two identical section or chapter groups (for example the summaries of blank pages) can get different summaries, or one can be answered while the other raises. The model cannot express such runs.
- `App.Page.HandleFileUpload`: extraction cannot fail in the model. In the program, a rejection of `pdfjs.getDocument` or `getPage` (src/utils/pdfProcessor.ts:41, 45) reaches the `catch` block (src/App.tsx:22-28) as the generic message, after only the extraction reports made so far. The model does not produce that outcome.
