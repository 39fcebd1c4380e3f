/**
 * Sequences of events delivered to one file-picker component, and what holds
 * after any of them: the `over` class tracks the drag counter, the action log
 * records exactly the selections in order, no started read is ever withdrawn,
 * and a lowered `removePreview` trigger stays down.
 */
module PickerRuns {
  import opened FileApi
  import opened PickerState

  /** The events that reach the component's handlers and observer. */
  datatype Event =
    | Inserted
    | DragEntered
    | DragLeft
    | Dropped(files: seq<File>)
    | Changed(files: seq<File>)
    | RemovePreviewSet(v: bool)
    | PreviewRequested(files: seq<File>)
    | PreviewLoaded(result: ReadResult)

  /** The state after one event. */
  function Step(c: Config, p: Picker, e: Event): Picker
  {
    match e
    case Inserted => DidInsertElement(c, p)
    case DragEntered => DragEnter(c, p)
    case DragLeft => DragLeave(p)
    case Dropped(files) => Drop(c, p, files)
    case Changed(files) => OnChange(c, p, files)
    case RemovePreviewSet(v) => SetRemovePreview(p, v)
    case PreviewRequested(files) => UpdatePreview(c, p, files)
    case PreviewLoaded(result) => AddPreviewImage(c, p, result)
  }

  /** The state after the events `es`, delivered in order. */
  function Run(c: Config, p: Picker, es: seq<Event>): Picker
    decreases |es|
  {
    if es == [] then p else Step(c, Run(c, p, es[..|es| - 1]), es[|es| - 1])
  }

  /** The actions one event sends to the host. */
  function Sends(c: Config, e: Event): seq<Action>
  {
    match e
    case Dropped(files) => [SelectionAction(c, files)]
    case Changed(files) => [SelectionAction(c, files)]
    case _ => []
  }

  /** The actions a run of events sends, in order. */
  function Dispatched(c: Config, es: seq<Event>): seq<Action>
    decreases |es|
  {
    if es == [] then [] else Dispatched(c, es[..|es| - 1]) + Sends(c, es[|es| - 1])
  }

  /** The reads one event starts. */
  function Starts(c: Config, e: Event): seq<ReadRequest>
  {
    match e
    case PreviewRequested(files) =>
      if c.multiple.Truthy() || !CanReadDataURL(c) then []
      else [ReadRequest(First(files), "readAsDataURL")]
    case _ => []
  }

  /** The reads a run of events starts, in order. */
  function Started(c: Config, es: seq<Event>): seq<ReadRequest>
    decreases |es|
  {
    if es == [] then [] else Started(c, es[..|es| - 1]) + Starts(c, es[|es| - 1])
  }

  /** Drag entries minus drag leaves. */
  function NetDepth(es: seq<Event>): int
    decreases |es|
  {
    if es == [] then 0
    else NetDepth(es[..|es| - 1]) + (match es[|es| - 1] case DragEntered => 1 case DragLeft => -1 case _ => 0)
  }

  /** Every handler keeps the `over` class in step with the counter. */
  lemma StepKeepsOverTracksCount(c: Config, p: Picker, e: Event)
    requires OverTracksCount(p.drag)
    ensures OverTracksCount(Step(c, p, e).drag)
  {
  }

  /**
   * Whatever enters, leaves and drops arrive, and even when the counter has
   * gone negative, the `over` class is present exactly while the counter is
   * positive.
   */
  lemma {:induction false} RunKeepsOverTracksCount(c: Config, p: Picker, es: seq<Event>)
    requires OverTracksCount(p.drag)
    ensures OverTracksCount(Run(c, p, es).drag)
    decreases |es|
  {
    if es != [] {
      RunKeepsOverTracksCount(c, p, es[..|es| - 1]);
      StepKeepsOverTracksCount(c, Run(c, p, es[..|es| - 1]), es[|es| - 1]);
    }
  }

  /** From a fresh component the `over` class tracks the counter forever. */
  lemma OverTracksCountFromInit(c: Config, removePreview: bool, es: seq<Event>)
    ensures Run(c, Init(removePreview), es).drag.over <==> Run(c, Init(removePreview), es).drag.count > 0
  {
    RunKeepsOverTracksCount(c, Init(removePreview), es);
  }

  /**
   * The action log is append-only and grows by exactly one action per change
   * or drop event, in the order of the events.
   */
  lemma {:induction false} RunSendsExactlyTheSelections(c: Config, p: Picker, es: seq<Event>)
    ensures Run(c, p, es).sent == p.sent + Dispatched(c, es)
    decreases |es|
  {
    if es != [] {
      RunSendsExactlyTheSelections(c, p, es[..|es| - 1]);
      var q := Run(c, p, es[..|es| - 1]);
      var e := es[|es| - 1];
      assert Step(c, q, e).sent == q.sent + Sends(c, e);
    }
  }

  /**
   * A started read is never cancelled or replaced: the record of reads only
   * grows, by one data-URL read per single-mode preview request that the
   * reader can serve.
   */
  lemma {:induction false} RunNeverCancelsReads(c: Config, p: Picker, es: seq<Event>)
    ensures Run(c, p, es).readRequests == p.readRequests + Started(c, es)
    decreases |es|
  {
    if es != [] {
      RunNeverCancelsReads(c, p, es[..|es| - 1]);
      var q := Run(c, p, es[..|es| - 1]);
      var e := es[|es| - 1];
      assert Step(c, q, e).readRequests == q.readRequests + Starts(c, e);
    }
  }

  /**
   * Without a drop in between, the counter moves by exactly the number of
   * entries minus the number of leaves, with no floor at zero.
   */
  lemma {:induction false} RunCountIsNetDepth(c: Config, p: Picker, es: seq<Event>)
    requires forall i | 0 <= i < |es| :: !es[i].Dropped?
    ensures Run(c, p, es).drag.count == p.drag.count + NetDepth(es)
    decreases |es|
  {
    if es != [] {
      var init := es[..|es| - 1];
      assert forall i | 0 <= i < |init| :: init[i] == es[i];
      RunCountIsNetDepth(c, p, init);
    }
  }

  /** A drop ends the gesture whatever came before it. */
  lemma DropEndsGesture(c: Config, p: Picker, es: seq<Event>, files: seq<File>)
    ensures Run(c, p, es + [Dropped(files)]).drag == Drag(0, false)
  {
  }

  /** Once down, the `removePreview` trigger is down after every event. */
  lemma {:induction false} RemovePreviewStaysDown(c: Config, p: Picker, es: seq<Event>)
    requires !p.removePreview
    ensures !Run(c, p, es).removePreview
    decreases |es|
  {
    if es != [] {
      RemovePreviewStaysDown(c, p, es[..|es| - 1]);
    }
  }

  /**
   * The counter has no floor: a leave that no enter matched makes the next
   * enter bring the counter back to zero only, so that enter does not add the
   * `over` class.
   */
  lemma UnmatchedLeaveHidesNextDrag(c: Config)
    ensures Run(c, Init(false), [DragLeft, DragEntered]).drag == Drag(0, false)
  {
  }

  /** Delivering `xs` and then `ys` is delivering `xs + ys`. */
  lemma {:induction false} RunAppend(c: Config, p: Picker, xs: seq<Event>, ys: seq<Event>)
    ensures Run(c, p, xs + ys) == Run(c, Run(c, p, xs), ys)
    decreases |ys|
  {
    if ys == [] {
      assert xs + ys == xs;
    } else {
      var init := ys[..|ys| - 1];
      assert (xs + ys)[..|xs + ys| - 1] == xs + init;
      RunAppend(c, p, xs, init);
    }
  }

  /**
   * After one unmatched leave on a fresh component, and until a drop resets
   * the counter, the `over` class shows one nesting level late: it is present
   * exactly when the later enters outnumber the later leaves by two or more.
   */
  lemma UnmatchedLeaveDelaysIndicator(c: Config, es: seq<Event>)
    requires forall i | 0 <= i < |es| :: !es[i].Dropped?
    ensures Run(c, Init(false), [DragLeft] + es).drag.over <==> NetDepth(es) >= 2
  {
    RunAppend(c, Init(false), [DragLeft], es);
    var q := Run(c, Init(false), [DragLeft]);
    assert [DragLeft][..0] == [];
    assert q.drag == Drag(-1, false);
    RunCountIsNetDepth(c, q, es);
    RunKeepsOverTracksCount(c, q, es);
  }

  /**
   * Since no read is cancelled, two overlapping single-mode previews both
   * land: when both reads resolve after both requests, the container ends
   * with two `single` images instead of one.
   */
  lemma OverlappingSinglePreviewsBothLand(c: Config, f1: File, f2: File, r1: ReadResult, r2: ReadResult)
    requires !c.multiple.Truthy() && CanReadDataURL(c)
    ensures Run(c, Init(false), [PreviewRequested([f1]), PreviewRequested([f2]), PreviewLoaded(r1), PreviewLoaded(r2)]).view.images ==
      [Image(r1.data, Single), Image(r2.data, Single)]
  {
    var es := [PreviewRequested([f1]), PreviewRequested([f2]), PreviewLoaded(r1), PreviewLoaded(r2)];
    var p0 := Init(false);
    assert es[..1][..0] == [] && es[..2][..1] == es[..1] && es[..3][..2] == es[..2] && es[..4][..3] == es[..3];
    assert es[..1] == [PreviewRequested([f1])];
    var p1 := Run(c, p0, es[..1]);
    assert p1 == Step(c, Run(c, p0, []), PreviewRequested([f1]));
    assert p1 == UpdatePreview(c, p0, [f1]);
    var p2 := Run(c, p0, es[..2]);
    assert p2 == UpdatePreview(c, p1, [f2]) && p2.view.images == [];
    var p3 := Run(c, p0, es[..3]);
    assert p3 == AddPreviewImage(c, p2, r1) && p3.view.images == [Image(r1.data, Single)];
    assert es[..4] == es;
  }

  /**
   * A single-mode drag that enters while a preview read is under way clears
   * the preview; the image then lands in the hidden container while the
   * dropzone is shown.
   */
  lemma DragDuringPreviewReadHidesImage(c: Config, f: File, r: ReadResult)
    requires !c.multiple.Truthy() && CanReadDataURL(c)
    ensures var q := Run(c, Init(false), [PreviewRequested([f]), DragEntered, PreviewLoaded(r)]);
      q.view.images == [Image(r.data, Single)] && !q.view.previewVisible && q.view.dropzoneVisible
  {
    var es := [PreviewRequested([f]), DragEntered, PreviewLoaded(r)];
    var p0 := Init(false);
    assert es[..1] == [PreviewRequested([f])] && es[..1][..0] == [];
    assert es[..2][..1] == es[..1] && es[..3][..2] == es[..2] && es[..3] == es;
    var p1 := Run(c, p0, es[..1]);
    assert p1 == Step(c, Run(c, p0, []), PreviewRequested([f]));
    var p2 := Run(c, p0, es[..2]);
    assert p2 == DragEnter(c, p1) && p2.view.images == [] && !p2.view.previewVisible;
  }
}
