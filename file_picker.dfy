/**
 * The file-picker component itself (addon/components/file-picker.js): an
 * object whose handlers update its fields in place. Each method leaves the
 * object in the state the matching function of PickerState computes from the
 * state before, and calls the same helpers the component's handler calls.
 */
module FilePickerComponent {
  import opened Wrappers
  import opened FileApi
  import PickerState

  class FilePicker {
    const multiple: PickerState.JsValue
    const selectOnClick: PickerState.JsValue
    const hideFileInput: PickerState.JsValue
    /** The names of the members that are truthy on a FileReader in this browser. */
    const readerMembers: set<string>

    var count: int
    var over: bool
    var inputVisible: bool
    var previewVisible: bool
    var progressVisible: bool
    var dropzoneVisible: bool
    var previewImages: seq<PickerState.Image>
    var removePreview: bool
    /** The actions sent to the host, oldest first. */
    var sent: seq<PickerState.Action>
    /** The reads started through `readFile`, oldest first. */
    var readRequests: seq<ReadRequest>

    function Settings(): PickerState.Config
    {
      PickerState.Config(multiple, selectOnClick, hideFileInput, readerMembers)
    }

    function State(): PickerState.Picker
      reads this
    {
      PickerState.Picker(
        PickerState.Drag(count, over),
        PickerState.View(inputVisible, previewVisible, progressVisible, dropzoneVisible, previewImages),
        removePreview, sent, readRequests)
    }

    /** The object invariant: `over` is set exactly while `count` is positive. */
    ghost predicate Valid()
      reads this
    {
      PickerState.OverTracksCount(State().drag)
    }

    constructor (multiple: PickerState.JsValue, selectOnClick: PickerState.JsValue,
                 hideFileInput: PickerState.JsValue, readerMembers: set<string>, removePreview: bool)
      ensures Valid()
      ensures Settings() == PickerState.Config(multiple, selectOnClick, hideFileInput, readerMembers)
      ensures State() == PickerState.Init(removePreview)
    {
      this.multiple, this.selectOnClick, this.hideFileInput := multiple, selectOnClick, hideFileInput;
      this.readerMembers := readerMembers;
      count, over := 0, false;
      inputVisible, previewVisible, progressVisible, dropzoneVisible := true, true, true, true;
      previewImages := [];
      this.removePreview := removePreview;
      sent, readRequests := [], [];
    }

    method HideInput()
      requires Valid()
      modifies this
      ensures Valid() && State() == PickerState.HideInput(old(State()))
    {
      inputVisible := false;
    }

    method HidePreview()
      requires Valid()
      modifies this
      ensures Valid() && State() == PickerState.HidePreview(old(State()))
    {
      previewVisible := false;
    }

    method HideProgress()
      requires Valid()
      modifies this
      ensures Valid() && State() == PickerState.HideProgress(old(State()))
    {
      progressVisible := false;
    }

    method ClearPreview()
      requires Valid()
      modifies this
      ensures Valid() && State() == PickerState.ClearPreview(old(State()))
      ensures previewImages == [] && !previewVisible && dropzoneVisible && !removePreview
    {
      previewImages := [];
      HidePreview();
      dropzoneVisible := true;
      removePreview := false;
    }

    method DidInsertElement()
      requires Valid()
      modifies this
      ensures Valid() && State() == PickerState.DidInsertElement(Settings(), old(State()))
    {
      if hideFileInput.Truthy() {
        HideInput();
      }
      HidePreview();
      HideProgress();
    }

    /** The native input changed; `files` is its file list. */
    method OnChange(files: seq<File>)
      requires Valid()
      modifies this
      ensures Valid() && State() == PickerState.OnChange(Settings(), old(State()), files)
      ensures sent == old(sent) + [PickerState.SelectionAction(Settings(), files)]
    {
      if multiple.Truthy() {
        sent := sent + [PickerState.FilesSelected(files)];
      } else {
        sent := sent + [PickerState.FileSelected(PickerState.First(files))];
      }
      if |files| == 0 {
        ClearPreview();
      }
    }

    /** Files were dropped on the component. */
    method Drop(files: seq<File>)
      requires Valid()
      modifies this
      ensures Valid() && State() == PickerState.Drop(Settings(), old(State()), files)
      ensures count == 0 && !over
      ensures sent == old(sent) + [PickerState.SelectionAction(Settings(), files)]
    {
      if multiple.Truthy() {
        sent := sent + [PickerState.FilesSelected(files)];
      } else {
        sent := sent + [PickerState.FileSelected(PickerState.First(files))];
      }
      count := 0;
      over := false;
    }

    method DragEnter()
      requires Valid()
      modifies this
      ensures Valid() && State() == PickerState.DragEnter(Settings(), old(State()))
      ensures count == old(count) + 1 && (over <==> count == 1 || old(over))
    {
      if !multiple.Truthy() {
        ClearPreview();
      }
      count := count + 1;
      if count == 1 {
        over := true;
      }
    }

    method DragLeave()
      requires Valid()
      modifies this
      ensures Valid() && State() == PickerState.DragLeave(old(State()))
      ensures count == old(count) - 1 && (over <==> count != 0 && old(over))
    {
      count := count - 1;
      if count == 0 {
        over := false;
      }
    }

    /** Starts reading `file` with the reader method `readAs`, after the guard. */
    method ReadFile(file: Option<File>, readAs: string) returns (outcome: ReadStart)
      requires Valid()
      modifies this
      ensures outcome == CheckReadAs(readerMembers, readAs)
      ensures Valid() && State() == PickerState.ReadFile(Settings(), old(State()), file, readAs)
    {
      outcome := CheckReadAs(readerMembers, readAs);
      if outcome.Started? {
        readRequests := readRequests + [ReadRequest(file, readAs)];
      }
    }

    /**
     * Starts a preview of `files`. The result is the message of the assertion
     * thrown by `readFile`, if any; the handler stops where it was thrown.
     */
    method UpdatePreview(files: seq<File>) returns (thrown: Option<string>)
      requires Valid()
      modifies this
      ensures Valid() && State() == PickerState.UpdatePreview(Settings(), old(State()), files)
      ensures thrown.Some? <==> !multiple.Truthy() && !PickerState.CanReadDataURL(Settings())
      ensures thrown.Some? ==> thrown.value == NotImplementedMessage("readAsDataURL")
    {
      thrown := None;
      if !multiple.Truthy() {
        ClearPreview();
        progressVisible := true;
        var outcome := ReadFile(PickerState.First(files), "readAsDataURL");
        if outcome.NotImplemented? {
          thrown := Some(outcome.message);
          return;
        }
        dropzoneVisible := false;
      }
      previewVisible := true;
    }

    /** The read started by `UpdatePreview` resolved with `result`. */
    method AddPreviewImage(result: ReadResult)
      requires Valid()
      modifies this
      ensures Valid() && State() == PickerState.AddPreviewImage(Settings(), old(State()), result)
      ensures previewImages == old(previewImages) + [PickerState.Image(result.data, PickerState.TagFor(Settings()))]
    {
      var tag := if multiple.Truthy() then PickerState.Multiple else PickerState.Single;
      HideProgress();
      previewImages := previewImages + [PickerState.Image(result.data, tag)];
    }

    /** The observer on `removePreview`. */
    method RemovePreviewDidChange()
      requires Valid()
      modifies this
      ensures Valid() && State() == PickerState.RemovePreviewDidChange(old(State()))
      ensures !removePreview
    {
      if removePreview {
        ClearPreview();
      }
    }

    /** The host sets `removePreview`; the observer runs when the value changes. */
    method SetRemovePreview(v: bool)
      requires Valid()
      modifies this
      ensures Valid() && State() == PickerState.SetRemovePreview(old(State()), v)
    {
      if v != removePreview {
        removePreview := v;
        RemovePreviewDidChange();
      }
    }

    /**
     * A click on the component; `targetIsInput` says whether it landed on the
     * native input. The result says whether the input is clicked in turn.
     */
    method Click(targetIsInput: bool) returns (triggerInputClick: bool)
      ensures triggerInputClick <==> selectOnClick == PickerState.JsBool(true) && !targetIsInput
      ensures triggerInputClick == PickerState.TriggersInputClick(Settings(), targetIsInput)
    {
      triggerInputClick := false;
      if selectOnClick == PickerState.JsBool(true) {
        if !targetIsInput {
          triggerInputClick := true;
        }
      }
    }
  }
}
