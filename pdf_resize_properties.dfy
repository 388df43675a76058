/**
 * What a call of `start` does, stated case by case over its specification AfterStart,
 * and how for-in iteration over a page sequence behaves.
 */
module PDFResizeProperties {
  import opened Wrappers
  import opened PDFResize

  /** The entry guard lets the run through: not finished, and no cancellation seen at entry. */
  predicate PastGuard(s: RunState, env: Environment)
  {
    !s.finished && !s.cancelled && !Observed(env.cancellation, 0)
  }

  /** Both documents can be opened: the run reaches the page loop. */
  predicate BothOpen(env: Environment)
  {
    env.input.openable && env.outputCreatable
  }

  /** A finished or cancelled operation ignores `start`: its flags, error, progress and output stay as they were. */
  lemma StartIsIgnoredWhenFinishedOrCancelled(s: RunState, inputURL: URL, outputURL: URL, outputSize: Size, env: Environment)
    requires s.finished || s.cancelled || Observed(env.cancellation, 0)
    ensures var r := AfterStart(s, inputURL, outputURL, outputSize, env);
      && r.executing == s.executing && r.finished == s.finished
      && r.error == s.error
      && r.totalUnitCount == s.totalUnitCount && r.completedUnitCount == s.completedUnitCount
      && r.output == s.output
  {
  }

  /** Every run past the guard ends finished and not executing, however it ends. */
  lemma StartEndsFinished(s: RunState, inputURL: URL, outputURL: URL, outputSize: Size, env: Environment)
    requires PastGuard(s, env)
    ensures var r := AfterStart(s, inputURL, outputURL, outputSize, env);
      r.finished && !r.executing
  {
  }

  /** An input that does not open records `couldNotOpenFileURL(inputURL)`, creates no output and reports no progress. */
  lemma UnopenableInputFails(s: RunState, inputURL: URL, outputURL: URL, outputSize: Size, env: Environment)
    requires PastGuard(s, env) && !env.input.openable
    ensures var r := AfterStart(s, inputURL, outputURL, outputSize, env);
      && r.error == Some(CouldNotOpenFileURL(inputURL))
      && r.output == s.output
      && r.totalUnitCount == s.totalUnitCount && r.completedUnitCount == s.completedUnitCount
  {
  }

  /**
   * An output context that cannot be created records `couldNotCreateOutputPDF(outputURL)`;
   * no page is emitted, the page count is not reported and nothing is closed.
   */
  lemma UncreatableOutputFails(s: RunState, inputURL: URL, outputURL: URL, outputSize: Size, env: Environment)
    requires PastGuard(s, env) && env.input.openable && !env.outputCreatable
    ensures var r := AfterStart(s, inputURL, outputURL, outputSize, env);
      && r.error == Some(CouldNotCreateOutputPDF(outputURL))
      && r.output == s.output
      && r.totalUnitCount == s.totalUnitCount && r.completedUnitCount == s.completedUnitCount
  {
  }

  /**
   * Without cancellation every page is emitted in source order, progress is complete,
   * no error is recorded and the output file is kept.
   */
  lemma UncancelledRunEmitsEveryPage(s: RunState, inputURL: URL, outputURL: URL, outputSize: Size, env: Environment)
    requires Consistent(s) && PastGuard(s, env) && BothOpen(env)
    requires !Observed(env.cancellation, |env.input.pages| + 1)
    ensures var r := AfterStart(s, inputURL, outputURL, outputSize, env);
      && r.error == None
      && r.totalUnitCount == |env.input.pages| && r.completedUnitCount == |env.input.pages|
      && r.output == Some(OutputState(Resized(env.input.pages, outputSize), 1, true, 0))
  {
    assert env.input.pages[..|env.input.pages|] == env.input.pages;
  }

  /**
   * Each emitted page is the source page at the same position with its media box resized to
   * the output size (origin kept), scaled by the output size over that page's own crop box.
   */
  lemma EmittedPagesAreResizedOneByOne(s: RunState, inputURL: URL, outputURL: URL, outputSize: Size, env: Environment)
    requires PastGuard(s, env) && BothOpen(env)
    ensures var r := AfterStart(s, inputURL, outputURL, outputSize, env);
      && r.output.Some?
      && |r.output.value.pages| <= |env.input.pages|
      && forall i :: 0 <= i < |r.output.value.pages| ==>
           var page, record := env.input.pages[i], r.output.value.pages[i];
           && record.mediaBox.size == outputSize
           && record.mediaBox.origin == page.mediaBox.origin
           && record.scale == Scale(outputSize, page.cropBox.size)
           && (page.cropBox.size.width != 0.0 ==> record.scale.X() == outputSize.width / page.cropBox.size.width)
           && (page.cropBox.size.height != 0.0 ==> record.scale.Y() == outputSize.height / page.cropBox.size.height)
  {
  }

  /** Progress never runs ahead of the output: completed units are the emitted pages, at most the total. */
  lemma ProgressCountsEmittedPages(s: RunState, inputURL: URL, outputURL: URL, outputSize: Size, env: Environment)
    requires Consistent(s)
    ensures var r := AfterStart(s, inputURL, outputURL, outputSize, env);
      && 0 <= r.completedUnitCount <= r.totalUnitCount
      && (r.output.Some? ==> r.completedUnitCount == |r.output.value.pages|)
  {
    AfterStartConsistent(s, inputURL, outputURL, outputSize, env);
  }

  /**
   * Cancellation first seen before page k + 1 (k = page count: after the last page):
   * exactly k pages are emitted, the output is still closed once, its removal is tried once
   * and whether it fails does not matter to the error, which stays nil.
   */
  lemma CancelledRunStopsAfterKPages(s: RunState, inputURL: URL, outputURL: URL, outputSize: Size, env: Environment, k: nat)
    requires Consistent(s) && !s.finished && !s.cancelled && BothOpen(env)
    requires env.cancellation == CancelledBefore(k + 1) && k <= |env.input.pages|
    ensures var r := AfterStart(s, inputURL, outputURL, outputSize, env);
      && r.error == None && r.cancelled && r.finished
      && r.completedUnitCount == k
      && r.output == Some(OutputState(Resized(env.input.pages[..k], outputSize), 1, !env.removalSucceeds, 1))
  {
  }

  /**
   * Three pages with crop boxes 200x200, 100x400 and 400x100 resized to 100x100: three
   * 100x100 pages scaled by (0.5, 0.5), (1.0, 0.25) and (0.25, 1.0).
   */
  lemma ThreeCropBoxesScaleIndependently(inputURL: URL, outputURL: URL)
    ensures
      var o := Point(0.0, 0.0);
      var pages := [Page(Rect(o, Size(200.0, 200.0)), Rect(o, Size(200.0, 200.0))),
                    Page(Rect(o, Size(100.0, 400.0)), Rect(o, Size(100.0, 400.0))),
                    Page(Rect(o, Size(400.0, 100.0)), Rect(o, Size(400.0, 100.0)))];
      var env := Environment(InputPDF(true, pages), true, NeverCancelled, true);
      var r := AfterStart(InitialRunState, inputURL, outputURL, Size(100.0, 100.0), env);
      && r.completedUnitCount == 3 && r.totalUnitCount == 3 && r.error == None
      && r.output.Some? && |r.output.value.pages| == 3
      && (forall i :: 0 <= i < 3 ==> r.output.value.pages[i].mediaBox == Rect(o, Size(100.0, 100.0)))
      && r.output.value.pages[0].scale.X() == 0.5 && r.output.value.pages[0].scale.Y() == 0.5
      && r.output.value.pages[1].scale.X() == 1.0 && r.output.value.pages[1].scale.Y() == 0.25
      && r.output.value.pages[2].scale.X() == 0.25 && r.output.value.pages[2].scale.Y() == 1.0
  {
  }

  /**
   * `for page in sequence` over a fresh PDFPageSequence with an empty loop body: it yields the
   * document's pages 1..N in order and stops at the first nil, after N + 1 calls of `next()`.
   */
  method IteratePages(document: seq<Page>) returns (yielded: seq<Page>, nextCalls: nat, lastPage: int)
    ensures yielded == document
    ensures nextCalls == |document| + 1
    ensures lastPage == |document| + 2
  {
    var pageSequence := new PDFPageSequence(document);
    yielded, nextCalls := [], 0;
    while true
      invariant pageSequence.document == document
      invariant nextCalls <= |document| && pageSequence.currentPage == nextCalls + 1
      invariant yielded == document[..nextCalls]
      decreases |document| - nextCalls
    {
      var page := pageSequence.Next();
      nextCalls := nextCalls + 1;
      if page.None? {
        break;
      }
      yielded := yielded + [page.value];
    }
    lastPage := pageSequence.currentPage;
  }
}
