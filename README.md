# ResizePDF: the resize operation's lifecycle

`resizepdf` re-renders every page of a PDF into a new page size and writes the result to a
new file. This project models the sequential core of that tool and proves what it does:

- the `start()` method of `PDFResizeOperation`: the re-entry guard, the executing/finished
  transitions, the two failure exits with their typed errors, the page loop with its
  cancellation check before each page, the per-page record (media box resized to the output
  size, scale taken from the page's own crop box), the progress counters, the single
  `closePDF`, and the best-effort removal of the output file after a cancellation;
- `PDFPageSequence`, the 1-based page iterator that stops at the first nil page;
- the `isExecuting`/`isFinished` setters of `ConcurrentProgressReportingOperation`, which call
  each other so that setting one flag to true clears the other;
- `ProcessInfo.userArgumentCount` and `ProcessInfo.userArguments`.

Files and modules:

- `wrappers.dfy` (`Wrappers`): `Option`, for Swift's optionals.
- `command_line.dfy` (`CommandLine`): the two user-argument properties, as functions.
- `progress_operation.dfy` (`ProgressOperation`): the flags as a value with the two setters as
  mutually recursive functions (`AfterSetExecuting`, `AfterSetFinished`), the invariant that the
  flags are never both true, and the class `ConcurrentProgressReportingOperation` whose
  mutually recursive setter methods are proved against those functions.
- `pdf_resize_operation.dfy` (`PDFResize`): geometry, pages, errors; the output context
  (`OutputPDF`), the page iterator (`PDFPageSequence`) and the operation (`PDFResizeOperation`)
  as classes; `AfterStart`, the closed-form specification of one call of `start`, which
  `PDFResizeOperation.Start` is proved to implement.
- `pdf_resize_properties.dfy` (`PDFResizeProperties`): the properties of `AfterStart`, case by
  case, a worked three-page example, and for-in iteration over a page sequence.

How the world is modelled:

- The input document is an `InputPDF`: whether it opens, and the media and crop box of each
  page. Whether the output context can be created and whether removing the output file
  succeeds are booleans of the `Environment`.
- Cancellation arrives from another thread. It is an input, `Cancellation`: the first
  checkpoint at which `isCancelled` reads true. Checkpoint 0 is the entry guard, checkpoint i
  the check before page i, and checkpoint N + 1 the check after `closePDF` (N pages). The flag
  never goes back to false, so once seen it is seen at every later checkpoint.
- Scale factors are kept as the pair of sizes they are the quotient of (`Scale`). `Scale.X()`
  and `Scale.Y()` give the quotient as a `real` when the crop dimension is not zero.

`start()` does no size validation (resizepdf/Model/PDFResizeOperation.swift:50-110), and the
command-line layer re-tests `width` where it means `height` (resizepdf/main.swift:76). So
`Start` accepts every output size and has no rejection path.

## Model

| member | source | states |
|---|---|---|
| CommandLine.UserArgumentCount | resizepdf/CommandLineHelpers.swift:35-37 | one less than the number of process arguments; -1 exactly when there are none |
| CommandLine.UserArguments | resizepdf/CommandLineHelpers.swift:42-48 | empty when the user argument count is at most 0; otherwise of length max(0, count) with element i equal to process argument i + 1 |
| CommandLine.UserArgumentsDropOnlyTheFirst | resizepdf/CommandLineHelpers.swift:47 | putting the first process argument back in front of the user arguments gives the process arguments again: exactly the first is dropped |
| ProgressOperation.AfterSetExecuting | resizepdf/Model/ConcurrentProgressReportingOperation.swift:48-58 | setting `isExecuting` stores the value; a true value makes `isFinished` false; a false value leaves `isFinished` unchanged; the flags are never both true afterwards |
| ProgressOperation.AfterSetFinished | resizepdf/Model/ConcurrentProgressReportingOperation.swift:66-77 | setting `isFinished` stores the value; a true value makes `isExecuting` false; a false value leaves `isExecuting` unchanged; the flags are never both true afterwards |
| ProgressOperation.ReplayKeepsExclusive | resizepdf/Model/ConcurrentProgressReportingOperation.swift:44-77 | from flags that are not both true, any sequence of setter calls keeps them not both true |
| ProgressOperation.NeverExecutingAndFinished | resizepdf/Model/ConcurrentProgressReportingOperation.swift:44-77 | from the initial flags (both false), no sequence of setter calls leaves both flags true |
| ProgressOperation.ConcurrentProgressReportingOperation.constructor | resizepdf/Model/ConcurrentProgressReportingOperation.swift:44-82 | a new operation is neither executing nor finished (`_executing`, `_finished` at lines 44 and 62), has zero progress (the fresh `Progress` at line 82), and its inherited `Operation` cancellation flag is false |
| ProgressOperation.ConcurrentProgressReportingOperation.Cancel | resizepdf/Model/PDFResizeOperation.swift:78-80 | `Operation.cancel()` as seen by the checks of `isCancelled`: the inherited flag becomes true and the flags and progress are unchanged |
| ProgressOperation.ConcurrentProgressReportingOperation.IsAsynchronous | resizepdf/Model/ConcurrentProgressReportingOperation.swift:39-41 | always true |
| ProgressOperation.ConcurrentProgressReportingOperation.SetExecuting | resizepdf/Model/ConcurrentProgressReportingOperation.swift:48-58 | the setter updates the flags as `AfterSetExecuting` says and nothing else; its call of the other setter terminates (a true value only triggers a false one, which calls nothing) |
| ProgressOperation.ConcurrentProgressReportingOperation.SetFinished | resizepdf/Model/ConcurrentProgressReportingOperation.swift:66-77 | the setter updates the flags as `AfterSetFinished` says and nothing else; its call of the other setter terminates |
| PDFResize.PageAt | resizepdf/Model/PDFResizeOperation.swift:125 | `page(at:)`: a page exactly for the 1-based indices 1..N, and then the page at position index - 1 |
| PDFResize.Scale.X | resizepdf/Model/PDFResizeOperation.swift:90 | `xScale`: the factor that takes the crop box width to the output width (result times crop width is the output width) |
| PDFResize.Scale.Y | resizepdf/Model/PDFResizeOperation.swift:91 | `yScale`: the factor that takes the crop box height to the output height (result times crop height is the output height) |
| PDFResize.ResizedPage | resizepdf/Model/PDFResizeOperation.swift:83-95 | the record of one page: its media box with the size replaced by the output size and the origin kept, and a scale of output size over this page's own crop box size |
| PDFResize.AfterStart | resizepdf/Model/PDFResizeOperation.swift:50-110 | the state one call of `start` leaves: finished exactly when already finished or past the guard, not left executing if it was not executing before, a new output only when closed once and with the error unchanged, a new error only without output or progress |
| PDFResize.Resized | resizepdf/Model/PDFResizeOperation.swift:77-96 | one output page per source page, in the same order, each the resized form of the source page at its position |
| PDFResize.ResizedAppend | resizepdf/Model/PDFResizeOperation.swift:86-95 | emitting one more source page appends exactly its resized page to the output |
| PDFResize.EmittedCount | resizepdf/Model/PDFResizeOperation.swift:77-80 | the number k of pages the loop emits: at most the page count, the checks before pages 1..k all read false, and if k is below the page count the check before page k + 1 reads true |
| PDFResize.AfterStartConsistent | resizepdf/Model/PDFResizeOperation.swift:50-110 | `start` keeps the operation consistent: never left executing, an error only without output, an output closed once with one page per completed unit and completed never above total |
| PDFResize.OutputPDF.constructor | resizepdf/Model/PDFResizeOperation.swift:68 | a newly created output context has no pages, has not been closed, and its file exists |
| PDFResize.OutputPDF.AppendPage | resizepdf/Model/PDFResizeOperation.swift:84-96 | one page is appended to the output context and nothing else changes |
| PDFResize.OutputPDF.ClosePDF | resizepdf/Model/PDFResizeOperation.swift:101 | the close count rises by one and nothing else changes |
| PDFResize.OutputPDF.RemoveItem | resizepdf/Model/PDFResizeOperation.swift:104-109 | one more removal attempt; the file is gone exactly when the removal succeeds |
| PDFResize.PDFPageSequence.constructor | resizepdf/Model/PDFResizeOperation.swift:114-121 | a new page sequence starts at page 1 |
| PDFResize.PDFPageSequence.Next | resizepdf/Model/PDFResizeOperation.swift:123-126 | returns `page(at: currentPage)` (nil outside 1..N) and advances `currentPage` by exactly one, also on the call that returns nil |
| PDFResize.PDFResizeOperation.constructor | resizepdf/Model/PDFResizeOperation.swift:43-47 | the new operation has the given URLs and size, and is in the initial state |
| PDFResize.PDFResizeOperation.ObserveCancellation | resizepdf/Model/PDFResizeOperation.swift:78 | reading `isCancelled` at a checkpoint (this check, and likewise the entry guard and the check after `closePDF`): true once the cancellation has arrived, and nothing else changes |
| PDFResize.PDFResizeOperation.EmitPage | resizepdf/Model/PDFResizeOperation.swift:83-98 | exactly one page is appended (media box resized, scale from this page's own crop box), then the completed count rises by exactly one |
| PDFResize.PDFResizeOperation.EmitPages | resizepdf/Model/PDFResizeOperation.swift:76-99 | the page loop emits the first `EmittedCount` pages in order, one completed unit each, and stops at the first nil page or at the first check that sees cancellation |
| PDFResize.PDFResizeOperation.Start | resizepdf/Model/PDFResizeOperation.swift:50-110 | one call of `start` leaves exactly the state `AfterStart` gives, and keeps the operation consistent |
| PDFResizeProperties.StartIsIgnoredWhenFinishedOrCancelled | resizepdf/Model/PDFResizeOperation.swift:52-54 | if already finished or cancelled, flags, error, progress and output are unchanged and no output is created |
| PDFResizeProperties.StartEndsFinished | resizepdf/Model/PDFResizeOperation.swift:56-59 | every run past the guard ends finished and not executing, on success, failure and cancellation alike |
| PDFResizeProperties.UnopenableInputFails | resizepdf/Model/PDFResizeOperation.swift:62-65 | an unopenable input records `couldNotOpenFileURL(inputURL)`, creates no output and leaves progress untouched |
| PDFResizeProperties.UncreatableOutputFails | resizepdf/Model/PDFResizeOperation.swift:68-71 | an uncreatable output records `couldNotCreateOutputPDF(outputURL)`; no page emitted, total not set, nothing closed |
| PDFResizeProperties.UncancelledRunEmitsEveryPage | resizepdf/Model/PDFResizeOperation.swift:73-101 | without cancellation: total and completed both equal the page count, every page is emitted in order 1..N, the output is closed once and kept, and the error stays nil |
| PDFResizeProperties.EmittedPagesAreResizedOneByOne | resizepdf/Model/PDFResizeOperation.swift:83-95 | emitted page i has the output size and the origin of source page i's media box, and scale output size over page i's own crop box |
| PDFResizeProperties.ProgressCountsEmittedPages | resizepdf/Model/PDFResizeOperation.swift:74-98 | the completed count is the number of emitted pages and never exceeds the total |
| PDFResizeProperties.CancelledRunStopsAfterKPages | resizepdf/Model/PDFResizeOperation.swift:78-80 | cancellation first seen before page k + 1 emits exactly k pages with k completed units, closes once, tries the removal once, and the error stays nil whether or not the removal fails |
| PDFResizeProperties.ThreeCropBoxesScaleIndependently | resizepdf/Model/PDFResizeOperation.swift:83-95 | crop boxes 200x200, 100x400, 400x100 resized to 100x100 give three 100x100 pages scaled (0.5, 0.5), (1.0, 0.25), (0.25, 1.0) |
| PDFResizeProperties.IteratePages | resizepdf/Model/PDFResizeOperation.swift:114-127 | iterating a fresh page sequence yields pages 1..N in order, then stops after N + 1 calls of `next()`, with `currentPage` at N + 2 |

## Left out

- Key-value observing (`willChangeValue`/`didChangeValue`), `Operation` queue scheduling and the thread safety of `Progress`: there are no threads in the model.
- `Operation.cancel()` is reduced to raising the cancellation flag (`ConcurrentProgressReportingOperation.Cancel`); when it happens is an input.
- CoreGraphics rendering: `beginPage`, `scaleBy`, `drawPDFPage`, `endPage` and the graphics-state save and restore become one appended page record per page; the scoping of the graphics state shows only as each page's scale coming from its own crop box.
- Floating-point arithmetic: the scale is kept as a pair of sizes; `Scale.X`/`Scale.Y` use exact `real` division and need a non-zero crop dimension, which the code does not check.
- Opening the input PDF, creating the output context and removing the output file are inputs (`Environment`); the removal's failure is swallowed as in the code.
- `Int64(pageCount)` and `completedUnitCount += 1` are unbounded integers; a page count is far below 2^63.
- The release of the source document is not modelled, since the code states nothing about it.
- `resizepdf/main.swift` (argument parsing, file reachability, exit codes, messages), `StandardErrorStream`, `exit(status:_:)` and the tilde expansion helpers are process glue and are not part of this model.
