/**
 * The state of the file-picker component (addon/components/file-picker.js) as
 * a value, and each event handler of the component as a function from the
 * state before to the state after. The DOM is abstracted into visibility flags
 * for the four sub-elements (input, preview, progress, dropzone), the list of
 * images in the preview container, and the `over` class; `sendAction` becomes
 * an append-only log of the actions sent to the host.
 */
module PickerState {
  import opened Wrappers
  import opened FileApi

  /**
   * A configuration property as JavaScript sees it. Most handlers test a
   * property for truthiness; `click` compares `selectOnClick` with `=== true`,
   * which a truthy non-boolean (the string "true", say) does not pass.
   */
  datatype JsValue = JsBool(b: bool) | JsOther(truthy: bool)
  {
    /** The outcome of `if (value)`. */
    predicate Truthy()
    {
      if JsBool? then b else truthy
    }
  }

  /**
   * What the handlers read and never change: the component's configuration,
   * and the names of the members that are truthy on a FileReader in the
   * browser at hand.
   */
  datatype Config = Config(
    multiple: JsValue,
    selectOnClick: JsValue,
    hideFileInput: JsValue,
    readerMembers: set<string>)

  /** The class an added preview image carries. */
  datatype Tag = Single | Multiple

  /** An `img` element in the preview container. */
  datatype Image = Image(src: string, tag: Tag)

  /** An action sent to the host with `sendAction`. */
  datatype Action = FileSelected(file: Option<File>) | FilesSelected(files: seq<File>)

  /** The drag-nesting counter and whether the component carries the `over` class. */
  datatype Drag = Drag(count: int, over: bool)

  /** Which sub-elements are shown, and what the preview container holds. */
  datatype View = View(
    inputVisible: bool,
    previewVisible: bool,
    progressVisible: bool,
    dropzoneVisible: bool,
    images: seq<Image>)

  /** The whole mutable state of one component. */
  datatype Picker = Picker(
    drag: Drag,
    view: View,
    removePreview: bool,
    sent: seq<Action>,
    readRequests: seq<ReadRequest>)

  /**
   * A freshly created component: no drag under way, every sub-element shown as
   * the template renders it, an empty preview, nothing sent and nothing read.
   * The host may bind `removePreview` to any value before insertion.
   */
  function Init(removePreview: bool): Picker
  {
    Picker(Drag(0, false), View(true, true, true, true, []), removePreview, [], [])
  }

  /** The `over` class is present exactly while the counter is positive. */
  predicate OverTracksCount(d: Drag)
  {
    d.over == (d.count > 0)
  }

  /** Only the view may differ between `p` and `r`. */
  predicate SameExceptView(p: Picker, r: Picker)
  {
    r.drag == p.drag && r.removePreview == p.removePreview &&
    r.sent == p.sent && r.readRequests == p.readRequests
  }

  /** `files[0]`: the first file, or `undefined` for an empty list. */
  function First(files: seq<File>): (r: Option<File>)
    ensures r.Some? <==> |files| > 0
    ensures r.Some? ==> r.value == files[0]
  {
    if |files| == 0 then None else Some(files[0])
  }

  /**
   * The action a selection sends: the whole list when `multiple` is truthy,
   * otherwise `files[0]` alone.
   */
  function SelectionAction(c: Config, files: seq<File>): (a: Action)
    ensures a.FilesSelected? <==> c.multiple.Truthy()
    ensures a.FilesSelected? ==> a.files == files
    ensures a.FileSelected? ==> a.file == First(files)
  {
    if c.multiple.Truthy() then FilesSelected(files) else FileSelected(First(files))
  }

  /** The files the host receives with an action. */
  function Reported(a: Action): seq<File>
  {
    match a
    case FileSelected(f) => if f.Some? then [f.value] else []
    case FilesSelected(fs) => fs
  }

  /**
   * A selection reports a prefix of the chosen files in their order: all of
   * them in multiple mode, at most the first in single mode, and nothing at all
   * (an `undefined` file) when the list is empty.
   */
  lemma SelectionReportsPrefix(c: Config, files: seq<File>)
    ensures Reported(SelectionAction(c, files)) <= files
    ensures c.multiple.Truthy() ==> Reported(SelectionAction(c, files)) == files
    ensures !c.multiple.Truthy() ==> |Reported(SelectionAction(c, files))| == if files == [] then 0 else 1
  {
  }

  /** The class of a new preview image: `multiple` or `single`. */
  function TagFor(c: Config): (t: Tag)
    ensures t == Multiple <==> c.multiple.Truthy()
  {
    if c.multiple.Truthy() then Multiple else Single
  }

  /** `hideInput`: hides the native input and nothing else. */
  function HideInput(p: Picker): (r: Picker)
    ensures !r.view.inputVisible && SameExceptView(p, r)
    ensures r.view.(inputVisible := p.view.inputVisible) == p.view
  {
    p.(view := p.view.(inputVisible := false))
  }

  /** `hidePreview`: hides the preview container and nothing else. */
  function HidePreview(p: Picker): (r: Picker)
    ensures !r.view.previewVisible && SameExceptView(p, r)
    ensures r.view.(previewVisible := p.view.previewVisible) == p.view
  {
    p.(view := p.view.(previewVisible := false))
  }

  /** `hideProgress`: hides the progress bar and nothing else. */
  function HideProgress(p: Picker): (r: Picker)
    ensures !r.view.progressVisible && SameExceptView(p, r)
    ensures r.view.(progressVisible := p.view.progressVisible) == p.view
  {
    p.(view := p.view.(progressVisible := false))
  }

  /**
   * `clearPreview`: empties and hides the preview, shows the dropzone and puts
   * the `removePreview` trigger down; the input, the progress bar, the drag
   * state and the logs are untouched.
   */
  function ClearPreview(p: Picker): (r: Picker)
    ensures r.view.images == [] && !r.view.previewVisible && r.view.dropzoneVisible
    ensures !r.removePreview
    ensures r.view.inputVisible == p.view.inputVisible
    ensures r.view.progressVisible == p.view.progressVisible
    ensures r.drag == p.drag && r.sent == p.sent && r.readRequests == p.readRequests
  {
    var hidden := HidePreview(p.(view := p.view.(images := [])));
    hidden.(view := hidden.view.(dropzoneVisible := true), removePreview := false)
  }

  /** Clearing the preview a second time changes nothing. */
  lemma ClearPreviewIdempotent(p: Picker)
    ensures ClearPreview(ClearPreview(p)) == ClearPreview(p)
  {
  }

  /**
   * `didInsertElement`: hides the input when `hideFileInput` is truthy, then
   * hides the preview and the progress bar; the dropzone stays as rendered.
   */
  function DidInsertElement(c: Config, p: Picker): (r: Picker)
    ensures r.view.inputVisible == (p.view.inputVisible && !c.hideFileInput.Truthy())
    ensures !r.view.previewVisible && !r.view.progressVisible
    ensures r.view.dropzoneVisible == p.view.dropzoneVisible && r.view.images == p.view.images
    ensures SameExceptView(p, r)
  {
    var q := if c.hideFileInput.Truthy() then HideInput(p) else p;
    HideProgress(HidePreview(q))
  }

  /**
   * `onChange`: sends one selection action; an empty list (the chooser was
   * cancelled) also clears the preview, otherwise the view is left alone.
   */
  function OnChange(c: Config, p: Picker, files: seq<File>): (r: Picker)
    ensures r.sent == p.sent + [SelectionAction(c, files)]
    ensures files == [] ==> r == ClearPreview(p).(sent := r.sent)
    ensures files != [] ==> r == p.(sent := r.sent)
    ensures r.drag == p.drag && r.readRequests == p.readRequests
  {
    var q := p.(sent := p.sent + [SelectionAction(c, files)]);
    if |files| == 0 then ClearPreview(q) else q
  }

  /**
   * `drop`: sends one selection action, resets the counter to zero and removes
   * the `over` class whatever the counter was; the view is left alone.
   */
  function Drop(c: Config, p: Picker, files: seq<File>): (r: Picker)
    ensures r.sent == p.sent + [SelectionAction(c, files)]
    ensures r.drag == Drag(0, false)
    ensures r.view == p.view && r.removePreview == p.removePreview
    ensures r.readRequests == p.readRequests
  {
    p.(sent := p.sent + [SelectionAction(c, files)], drag := Drag(0, false))
  }

  /**
   * `dragEnter`: in single mode clears the preview on every enter; increments
   * the counter by one and adds the `over` class when the counter reaches one.
   */
  function DragEnter(c: Config, p: Picker): (r: Picker)
    ensures r.drag.count == p.drag.count + 1
    ensures r.drag.over <==> r.drag.count == 1 || p.drag.over
    ensures !c.multiple.Truthy() ==> r == ClearPreview(p).(drag := r.drag)
    ensures c.multiple.Truthy() ==> r == p.(drag := r.drag)
    ensures OverTracksCount(p.drag) ==> OverTracksCount(r.drag)
  {
    var q := if c.multiple.Truthy() then p else ClearPreview(p);
    var n := q.drag.count + 1;
    q.(drag := Drag(n, if n == 1 then true else q.drag.over))
  }

  /**
   * `dragLeave`: decrements the counter by one with no floor and removes the
   * `over` class only when the counter reaches exactly zero.
   */
  function DragLeave(p: Picker): (r: Picker)
    ensures r.drag.count == p.drag.count - 1
    ensures r.drag.over <==> r.drag.count != 0 && p.drag.over
    ensures r == p.(drag := r.drag)
    ensures OverTracksCount(p.drag) ==> OverTracksCount(r.drag)
  {
    var n := p.drag.count - 1;
    p.(drag := Drag(n, if n == 0 then false else p.drag.over))
  }

  /**
   * `readFile`: when the method name passes the guard on this browser's
   * reader, one read of `file` is started and recorded; otherwise the
   * assertion fails and nothing changes.
   */
  function ReadFile(c: Config, p: Picker, file: Option<File>, readAs: string): (r: Picker)
    ensures CheckReadAs(c.readerMembers, readAs).Started? ==>
      r.readRequests == p.readRequests + [ReadRequest(file, readAs)]
    ensures CheckReadAs(c.readerMembers, readAs).NotImplemented? ==> r == p
    ensures r == p.(readRequests := r.readRequests)
  {
    if CheckReadAs(c.readerMembers, readAs).Started? then
      p.(readRequests := p.readRequests + [ReadRequest(file, readAs)])
    else p
  }

  /** Whether this browser's reader can produce the data URL a preview needs. */
  predicate CanReadDataURL(c: Config)
  {
    CheckReadAs(c.readerMembers, "readAsDataURL").Started?
  }

  /**
   * `updatePreview`: in single mode clears the preview, shows the progress bar,
   * starts reading `files[0]` as a data URL and hides the dropzone; in either
   * mode it then shows the preview container. When the reader lacks
   * `readAsDataURL` the assertion in `readFile` throws, and the handler stops
   * with the preview cleared and the progress bar shown.
   */
  function UpdatePreview(c: Config, p: Picker, files: seq<File>): (r: Picker)
    ensures !c.multiple.Truthy() && CanReadDataURL(c) ==>
      r.view == View(p.view.inputVisible, true, true, false, []) &&
      r.readRequests == p.readRequests + [ReadRequest(First(files), "readAsDataURL")] &&
      !r.removePreview && r.drag == p.drag && r.sent == p.sent
    ensures !c.multiple.Truthy() && !CanReadDataURL(c) ==>
      r.view == View(p.view.inputVisible, false, true, true, []) &&
      r.readRequests == p.readRequests &&
      !r.removePreview && r.drag == p.drag && r.sent == p.sent
    ensures c.multiple.Truthy() ==> r == p.(view := p.view.(previewVisible := true))
  {
    if c.multiple.Truthy() then p.(view := p.view.(previewVisible := true))
    else
      var cleared := ClearPreview(p);
      var shown := cleared.(view := cleared.view.(progressVisible := true));
      var reading := ReadFile(c, shown, First(files), "readAsDataURL");
      if !CanReadDataURL(c) then reading
      else
        var hidden := reading.(view := reading.view.(dropzoneVisible := false));
        hidden.(view := hidden.view.(previewVisible := true))
  }

  /**
   * `addPreviewImage`: hides the progress bar and appends one image, tagged by
   * `multiple`, after the images already in the preview container.
   */
  function AddPreviewImage(c: Config, p: Picker, result: ReadResult): (r: Picker)
    ensures r.view.images == p.view.images + [Image(result.data, TagFor(c))]
    ensures !r.view.progressVisible
    ensures r.view.inputVisible == p.view.inputVisible
    ensures r.view.previewVisible == p.view.previewVisible
    ensures r.view.dropzoneVisible == p.view.dropzoneVisible
    ensures SameExceptView(p, r)
  {
    var q := HideProgress(p);
    q.(view := q.view.(images := q.view.images + [Image(result.data, TagFor(c))]))
  }

  /** The `removePreview` observer: when the trigger is up, clears the preview. */
  function RemovePreviewDidChange(p: Picker): (r: Picker)
    ensures !r.removePreview
    ensures p.removePreview ==> r == ClearPreview(p)
    ensures !p.removePreview ==> r == p
  {
    if p.removePreview then ClearPreview(p) else p
  }

  /**
   * The host sets `removePreview` to `v`. Observers run only when the value
   * changes; raising the trigger clears the preview and lowers it again, so it
   * is down afterwards unless it was already up.
   */
  function SetRemovePreview(p: Picker, v: bool): (r: Picker)
    ensures r.removePreview == (v && p.removePreview)
    ensures v && !p.removePreview ==> r == ClearPreview(p)
    ensures !(v && !p.removePreview) ==> r == p.(removePreview := r.removePreview)
  {
    if v == p.removePreview then p else RemovePreviewDidChange(p.(removePreview := v))
  }

  /**
   * `click`: asks the native input to be clicked only when `selectOnClick` is
   * exactly `true` and the click did not come from the input itself.
   */
  function TriggersInputClick(c: Config, targetIsInput: bool): (r: bool)
    ensures r ==> c.selectOnClick.Truthy()
    ensures r <==> c.selectOnClick == JsBool(true) && !targetIsInput
  {
    c.selectOnClick == JsBool(true) && !targetIsInput
  }

  /**
   * The click the component triggers on the input bubbles back with the input
   * as its target and triggers nothing more, so one click opens the chooser once.
   */
  lemma ClickDoesNotRetrigger(c: Config)
    ensures !TriggersInputClick(c, true)
  {
  }

  /**
   * A complete single-mode preview cycle: after `updatePreview` and the
   * `addPreviewImage` its read leads to, the container holds exactly the new
   * `single` image and only the preview is shown of the three surfaces.
   */
  lemma SinglePreviewCycle(c: Config, p: Picker, files: seq<File>, result: ReadResult)
    requires !c.multiple.Truthy()
    ensures CanReadDataURL(c) ==>
      var r := AddPreviewImage(c, UpdatePreview(c, p, files), result);
      r.view.images == [Image(result.data, Single)] &&
      r.view.previewVisible && !r.view.progressVisible && !r.view.dropzoneVisible
  {
  }

  /**
   * While the read of a single-mode preview is under way, the progress bar
   * is shown, and so is the preview container unless the reader could not
   * start the read.
   */
  lemma UpdatePreviewShowsProgressWithPreview(c: Config, p: Picker, files: seq<File>)
    requires !c.multiple.Truthy()
    ensures UpdatePreview(c, p, files).view.progressVisible
    ensures UpdatePreview(c, p, files).view.previewVisible <==> CanReadDataURL(c)
  {
  }

  /** In multiple mode, every loaded image is kept after the earlier ones. */
  lemma MultiplePreviewsAccumulate(c: Config, p: Picker, r1: ReadResult, r2: ReadResult)
    requires c.multiple.Truthy()
    ensures AddPreviewImage(c, AddPreviewImage(c, p, r1), r2).view.images ==
      p.view.images + [Image(r1.data, Multiple), Image(r2.data, Multiple)]
  {
  }
}
