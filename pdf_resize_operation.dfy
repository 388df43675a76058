/**
 * The resize operation (PDFResizeOperation) and its page iterator (PDFPageSequence).
 *
 * Documents are abstract: an input PDF is a flag saying whether it opens and the geometry
 * of its pages; the output PDF context is an append-only list of page records with a
 * count of `closePDF` calls and the state of the file it writes. Cancellation, which
 * another thread requests, is an input: the checkpoint at which the run first sees it.
 */
module PDFResize {
  import opened Wrappers
  import opened ProgressOperation

  // ---------------------------------------------------------------------------
  // Geometry and documents

  datatype Point = Point(x: real, y: real)
  datatype Size = Size(width: real, height: real)
  datatype Rect = Rect(origin: Point, size: Size)

  datatype URL = URL(path: string)

  /** The two ways a resize can fail, each naming the file involved. */
  datatype PDFResizeError =
    | CouldNotOpenFileURL(url: URL)
    | CouldNotCreateOutputPDF(url: URL)

  /** A source page: its media box (full extent) and crop box (visible extent). */
  datatype Page = Page(mediaBox: Rect, cropBox: Rect)

  /** What the input URL holds: whether it opens as a PDF, and its pages in order. */
  datatype InputPDF = InputPDF(openable: bool, pages: seq<Page>)

  /** `page(at:)` of a PDF document: pages are numbered from 1, and any other number gives nil. */
  function PageAt(pages: seq<Page>, index: int): (r: Option<Page>)
    ensures r.Some? <==> 1 <= index <= |pages|
    ensures r.Some? ==> r.value == pages[index - 1]
  {
    if 1 <= index <= |pages| then Some(pages[index - 1]) else None
  }

  /**
   * The scale applied to one output page, kept as the two sizes it is the quotient of:
   * `outputSize.width / cropSize.width` and `outputSize.height / cropSize.height`.
   */
  datatype Scale = Scale(outputSize: Size, cropSize: Size) {
    function X(): (r: real)
      requires cropSize.width != 0.0
      ensures r * cropSize.width == outputSize.width
    {
      outputSize.width / cropSize.width
    }

    function Y(): (r: real)
      requires cropSize.height != 0.0
      ensures r * cropSize.height == outputSize.height
    {
      outputSize.height / cropSize.height
    }
  }

  /** One page of the output: its media box and the scale its content was drawn with. */
  datatype PageRecord = PageRecord(mediaBox: Rect, scale: Scale)

  /** The output page for one source page: its media box resized, its own crop box scaled to fit. */
  function ResizedPage(page: Page, outputSize: Size): (r: PageRecord)
    ensures r.mediaBox.size == outputSize && r.mediaBox.origin == page.mediaBox.origin
    ensures r.scale.outputSize == outputSize && r.scale.cropSize == page.cropBox.size
  {
    PageRecord(Rect(page.mediaBox.origin, outputSize), Scale(outputSize, page.cropBox.size))
  }

  /** The output pages for a run of source pages, one each, in the same order. */
  function Resized(pages: seq<Page>, outputSize: Size): (r: seq<PageRecord>)
    ensures |r| == |pages|
    ensures forall i :: 0 <= i < |pages| ==> r[i] == ResizedPage(pages[i], outputSize)
  {
    if pages == [] then [] else [ResizedPage(pages[0], outputSize)] + Resized(pages[1..], outputSize)
  }

  lemma ResizedAppend(pages: seq<Page>, page: Page, outputSize: Size)
    ensures Resized(pages + [page], outputSize) == Resized(pages, outputSize) + [ResizedPage(page, outputSize)]
  {
  }

  // ---------------------------------------------------------------------------
  // Cancellation and the world the operation runs in

  /**
   * When `isCancelled` becomes true, by the checks the run makes: checkpoint 0 is the entry
   * guard, checkpoint i (1 <= i <= page count) the check before page i, and checkpoint
   * page count + 1 the check after `closePDF`. A cancellation requested after the last
   * checkpoint a run reaches is not seen by that run.
   */
  datatype Cancellation = NeverCancelled | CancelledBefore(checkpoint: nat)

  /** `isCancelled` is true at the given checkpoint; once true it stays true. */
  predicate Observed(c: Cancellation, checkpoint: nat)
  {
    c.CancelledBefore? && c.checkpoint <= checkpoint
  }

  /**
   * Everything the run depends on that the operation does not decide: the input file, whether
   * an output context can be created at the output URL, when cancellation arrives, and
   * whether removing the output file succeeds.
   */
  datatype Environment = Environment(
    input: InputPDF,
    outputCreatable: bool,
    cancellation: Cancellation,
    removalSucceeds: bool)

  /** The output PDF context and its file. */
  datatype OutputState = OutputState(
    pages: seq<PageRecord>,
    closeCount: nat,
    fileExists: bool,
    removalAttempts: nat)

  /** Everything about a resize operation that `start` can change. */
  datatype RunState = RunState(
    executing: bool,
    finished: bool,
    cancelled: bool,
    error: Option<PDFResizeError>,
    totalUnitCount: int,
    completedUnitCount: int,
    output: Option<OutputState>)

  const InitialRunState := RunState(false, false, false, None, 0, 0, None)

  /**
   * How many pages a run past both failure exits emits: the checks before pages 1..k all
   * read false, and the loop ends either after the last page or because the check before
   * page k + 1 reads true.
   */
  function EmittedCount(pageCount: nat, c: Cancellation): (k: nat)
    requires !Observed(c, 0)
    ensures k <= pageCount
    ensures !Observed(c, k)
    ensures k < pageCount ==> Observed(c, k + 1)
  {
    if c.CancelledBefore? && 0 < c.checkpoint <= pageCount then c.checkpoint - 1 else pageCount
  }

  /** The state `start` leaves behind, given the state before and the world it runs in. */
  function AfterStart(s: RunState, inputURL: URL, outputURL: URL, outputSize: Size, env: Environment): (r: RunState)
    ensures r.finished <==> s.finished || !(s.cancelled || Observed(env.cancellation, 0))
    ensures !s.executing ==> !r.executing
    ensures r.output != s.output ==> r.output.Some? && r.output.value.closeCount == 1 && r.error == s.error
    ensures r.error != s.error ==> r.output == s.output && r.completedUnitCount == s.completedUnitCount
  {
    var cancelledAtEntry := s.cancelled || Observed(env.cancellation, 0);
    if s.finished || cancelledAtEntry then
      s.(cancelled := cancelledAtEntry)
    else if !env.input.openable then
      s.(executing := false, finished := true, error := Some(CouldNotOpenFileURL(inputURL)))
    else if !env.outputCreatable then
      s.(executing := false, finished := true, error := Some(CouldNotCreateOutputPDF(outputURL)))
    else
      var pageCount := |env.input.pages|;
      var emitted := EmittedCount(pageCount, env.cancellation);
      var cancelledAtEnd := Observed(env.cancellation, pageCount + 1);
      s.(executing := false, finished := true, cancelled := cancelledAtEnd,
         totalUnitCount := pageCount,
         completedUnitCount := s.completedUnitCount + emitted,
         output := Some(OutputState(
           Resized(env.input.pages[..emitted], outputSize),
           1,
           !(cancelledAtEnd && env.removalSucceeds),
           if cancelledAtEnd then 1 else 0)))
  }

  /**
   * What holds of an operation between calls: it is not executing; before it finishes it
   * has no error, no output and no progress; an error means no output was created; an output
   * was closed once and holds one page per completed unit.
   */
  predicate Consistent(s: RunState)
  {
    && !s.executing
    && 0 <= s.completedUnitCount <= s.totalUnitCount
    && (!s.finished ==> s.error.None? && s.output.None? && s.totalUnitCount == 0 && s.completedUnitCount == 0)
    && (s.error.Some? ==> s.output.None?)
    && (s.output.Some? ==> s.output.value.closeCount == 1 && |s.output.value.pages| == s.completedUnitCount)
  }

  lemma AfterStartConsistent(s: RunState, inputURL: URL, outputURL: URL, outputSize: Size, env: Environment)
    requires Consistent(s)
    ensures Consistent(AfterStart(s, inputURL, outputURL, outputSize, env))
  {
  }

  // ---------------------------------------------------------------------------
  // The output PDF context

  /** A PDF output context: pages are only ever appended; `closePDF` finishes the file. */
  class OutputPDF {
    var pages: seq<PageRecord>
    var closeCount: nat
    var fileExists: bool
    var removalAttempts: nat

    constructor ()
      ensures Current() == OutputState([], 0, true, 0)
    {
      pages, closeCount, fileExists, removalAttempts := [], 0, true, 0;
    }

    function Current(): OutputState
      reads this
    {
      OutputState(pages, closeCount, fileExists, removalAttempts)
    }

    /** `beginPage`, the scale, `drawPDFPage` and `endPage` of one page, inside its own graphics state. */
    method AppendPage(page: PageRecord)
      modifies this
      ensures Current() == old(Current()).(pages := old(pages) + [page])
    {
      pages := pages + [page];
    }

    method ClosePDF()
      modifies this
      ensures Current() == old(Current()).(closeCount := old(closeCount) + 1)
    {
      closeCount := closeCount + 1;
    }

    /** `FileManager.removeItem` on the output file; a failure is swallowed by the caller. */
    method RemoveItem(succeeds: bool)
      modifies this
      ensures Current() == old(Current()).(fileExists := old(fileExists) && !succeeds,
                                           removalAttempts := old(removalAttempts) + 1)
    {
      if succeeds {
        fileExists := false;
      }
      removalAttempts := removalAttempts + 1;
    }
  }

  // ---------------------------------------------------------------------------
  // The page iterator

  /** Pulls pages 1, 2, ... from a document until `page(at:)` gives nil. */
  class PDFPageSequence {
    const document: seq<Page>
    var currentPage: int

    constructor (document: seq<Page>)
      ensures this.document == document && currentPage == 1
    {
      this.document := document;
      currentPage := 1;
    }

    /** The page at `currentPage`, or nil; `currentPage` advances on every call, the last one too. */
    method Next() returns (page: Option<Page>)
      modifies this
      ensures page == PageAt(document, old(currentPage))
      ensures currentPage == old(currentPage) + 1
    {
      page := PageAt(document, currentPage);
      currentPage := currentPage + 1;
    }
  }

  // ---------------------------------------------------------------------------
  // The resize operation

  class PDFResizeOperation {
    const inputURL: URL
    const outputURL: URL
    const outputSize: Size
    /** The inherited flags, cancellation state and progress. */
    const base: ConcurrentProgressReportingOperation
    var error: Option<PDFResizeError>
    /** The output context the last run created, if any (a local of `start`). */
    ghost var output: OutputPDF?

    constructor (inputURL: URL, outputURL: URL, outputSize: Size)
      ensures this.inputURL == inputURL && this.outputURL == outputURL && this.outputSize == outputSize
      ensures Valid() && fresh(base)
      ensures Current() == InitialRunState
    {
      this.inputURL := inputURL;
      this.outputURL := outputURL;
      this.outputSize := outputSize;
      base := new ConcurrentProgressReportingOperation();
      error := None;
      output := null;
    }

    ghost function Current(): RunState
      reads this, base, output
    {
      RunState(base.executing, base.finished, base.cancelled, error,
               base.totalUnitCount, base.completedUnitCount,
               if output == null then None else Some(output.Current()))
    }

    ghost predicate Valid()
      reads this, base, output
    {
      Consistent(Current())
    }

    /** Reads `isCancelled` at a checkpoint: a cancellation that has arrived by then raises the flag. */
    method ObserveCancellation(c: Cancellation, checkpoint: nat)
      modifies base
      ensures base.cancelled == (old(base.cancelled) || Observed(c, checkpoint))
      ensures base.Current() == old(base.Current())
      ensures base.totalUnitCount == old(base.totalUnitCount)
      ensures base.completedUnitCount == old(base.completedUnitCount)
    {
      if Observed(c, checkpoint) {
        base.Cancel();
      }
    }

    /**
     * The body of the page loop: the page's media box with its size replaced by the output
     * size, scaled by the output size over the page's own crop box, then one more completed unit.
     */
    method EmitPage(context: OutputPDF, page: Page)
      modifies context, base
      ensures context.Current() == old(context.Current()).(pages := old(context.pages) + [ResizedPage(page, outputSize)])
      ensures base.completedUnitCount == old(base.completedUnitCount) + 1
      ensures base.Current() == old(base.Current()) && base.cancelled == old(base.cancelled)
      ensures base.totalUnitCount == old(base.totalUnitCount)
    {
      var mediaBox := page.mediaBox;
      mediaBox := mediaBox.(size := outputSize);
      var cropBox := page.cropBox;
      context.AppendPage(PageRecord(mediaBox, Scale(outputSize, cropBox.size)));
      base.completedUnitCount := base.completedUnitCount + 1;
    }

    /**
     * The page loop: pages are pulled from a fresh page sequence; before each one the
     * cancellation flag is read and, if raised, the loop stops without emitting that page.
     */
    method EmitPages(context: OutputPDF, document: seq<Page>, c: Cancellation) returns (emitted: nat)
      requires context.Current() == OutputState([], 0, true, 0)
      requires !base.cancelled && !Observed(c, 0)
      modifies context, base
      ensures emitted == EmittedCount(|document|, c)
      ensures context.Current() == OutputState(Resized(document[..emitted], outputSize), 0, true, 0)
      ensures base.completedUnitCount == old(base.completedUnitCount) + emitted
      ensures base.cancelled ==> Observed(c, |document| + 1)
      ensures base.Current() == old(base.Current()) && base.totalUnitCount == old(base.totalUnitCount)
    {
      var pageSequence := new PDFPageSequence(document);
      emitted := 0;
      while true
        invariant emitted <= |document|
        invariant pageSequence.document == document && pageSequence.currentPage == emitted + 1
        invariant context.Current() == OutputState(Resized(document[..emitted], outputSize), 0, true, 0)
        invariant !base.cancelled && !Observed(c, emitted)
        invariant base.completedUnitCount == old(base.completedUnitCount) + emitted
        invariant base.Current() == old(base.Current()) && base.totalUnitCount == old(base.totalUnitCount)
        decreases |document| - emitted
      {
        var page := pageSequence.Next();
        if page.None? {
          break;
        }
        ObserveCancellation(c, emitted + 1);
        if base.cancelled {
          break;
        }
        assert document[..emitted + 1] == document[..emitted] + [page.value];
        ResizedAppend(document[..emitted], page.value, outputSize);
        EmitPage(context, page.value);
        emitted := emitted + 1;
      }
    }

    /** Resizes the input PDF into the output PDF, unless already finished or cancelled. */
    method Start(env: Environment)
      requires Valid()
      modifies this, base
      ensures Valid()
      ensures Current() == AfterStart(old(Current()), inputURL, outputURL, outputSize, env)
      ensures output != old(output) ==> fresh(output)
    {
      AfterStartConsistent(Current(), inputURL, outputURL, outputSize, env);
      ObserveCancellation(env.cancellation, 0);
      if base.finished || base.cancelled {
        return;
      }
      base.SetExecuting(true);

      if !env.input.openable {
        error := Some(CouldNotOpenFileURL(inputURL));
        base.SetFinished(true);
        return;
      }
      var document := env.input.pages;

      if !env.outputCreatable {
        error := Some(CouldNotCreateOutputPDF(outputURL));
        base.SetFinished(true);
        return;
      }
      var context := new OutputPDF();
      output := context;

      var pageCount := |document|;
      base.totalUnitCount := pageCount;

      var emitted := EmitPages(context, document, env.cancellation);

      context.ClosePDF();

      ObserveCancellation(env.cancellation, pageCount + 1);
      if base.cancelled {
        context.RemoveItem(env.removalSucceeds);
      }
      base.SetFinished(true);
    }
  }
}
