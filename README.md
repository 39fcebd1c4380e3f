# File picker component: a verified model

This project models the behaviour of `file-picker`, an Ember component that
lets a user choose files through the native file input or by dragging them
onto a drop zone, reports the selection to the host application with
`fileSelected` / `filesSelected` actions, and shows a preview of a single
chosen image.

The DOM is abstracted away. The component becomes the class
`FilePickerComponent.FilePicker` with these fields:

- `count` and `over`: the drag-nesting counter and the `over` CSS class;
- visibility flags for the native input, the preview container, the progress
  bar and the dropzone;
- `previewImages`, the `img` elements in the preview container, each tagged
  `single` or `multiple`;
- the `removePreview` one-shot trigger;
- `sent`, an append-only log of the actions sent to the host;
- `readRequests`, an append-only log of the file reads started.

The configuration is `multiple`, `selectOnClick` and `hideFileInput`. The
browser's FileReader enters the model only as the set of member names that are
truthy on it, which the `readAs` check tests. Each
configuration value is a `JsValue`, so the model can tell JavaScript
truthiness apart from the strict `=== true` that `click` uses.

Each handler is modelled twice:

- a method of the class that updates the fields step by step, calling the
  same helpers the handler calls;
- a function of `PickerState` that gives the state after the handler from the
  state before.

Each method's postcondition ties the two together. The module `PickerRuns`
proves what holds after any sequence of events:

- the `over` class is present exactly while the counter is positive;
- the log holds exactly one action per selection, in order;
- no started read is ever withdrawn;
- a lowered `removePreview` trigger stays down.

Where the component's documented design and its code differ, the model follows
the code:

- `dragLeave` has no floor at zero. A leave that no enter matched makes the
  counter negative. Until a drop resets it, the `over` class then appears one
  nesting level late: only once a nested `dragenter` (onto a child element)
  brings the counter to one (`PickerRuns.UnmatchedLeaveDelaysIndicator`).
- `dragEnter` clears the preview on every enter in single mode, not only on
  the first.
- No read is cancelled when a new one starts (`PickerRuns.RunNeverCancelsReads`).
  Two overlapping single-mode previews therefore leave two images in the
  container, not at most one (`PickerRuns.OverlappingSinglePreviewsBothLand`).
- `updatePreview` leaves the progress bar and the preview container visible
  together until the image arrives, if no other event comes in between
  (`PickerState.UpdatePreviewShowsProgressWithPreview`). A single-mode
  `dragEnter` during the read hides the preview and shows the dropzone while
  the progress bar stays up. The image then lands in the hidden container
  (`PickerRuns.DragDuringPreviewReadHidesImage`).
- Neither `onChange` nor `drop` calls `updatePreview`. The preview path only
  runs when `updatePreview` is called from outside these handlers.
- In single mode an empty file list is reported as `fileSelected(undefined)`,
  modelled as `FileSelected(None)`.

## Model

| member | source | states |
|---|---|---|
| FileApi.AcceptedAsWritten | addon/components/file-picker.js:157-158 | the guard as written: it accepts only names the reader has and that are not `abort`, and it accepts every read method the reader implements |
| FileApi.NotImplementedMessage | addon/components/file-picker.js:157-159 | the message is `readAs method "` followed by the rejected name, then `" not implemented`; the name sits at offset 15 and the message is 32 characters longer than it |
| FileApi.CheckReadAs | addon/components/file-picker.js:147-159 | a read starts iff `readAs` is one of the four reader methods AND the reader implements it (so never `abort` or an inherited method); otherwise the result is the not-implemented assertion with its message |
| FileApi.AsWrittenAdmitsListenerMethod | addon/components/file-picker.js:157-159 | the guard as written accepts `addEventListener` on any reader, because every FileReader is an event target; the intended guard rejects it |
| FileApi.CheckReadAsRefinesAsWritten | addon/components/file-picker.js:157-159 | on any reader the intended guard accepts only names the written guard accepts, agrees with it on every read method, and coincides with it when the reader's own methods are its only truthy members |
| PickerState.First | addon/components/file-picker.js:74 | `files[0]` is the first file when the list is non-empty and `undefined` (None) when it is empty |
| PickerState.SelectionAction | addon/components/file-picker.js:71-75 | multiple mode sends `filesSelected` with the whole list; single mode sends `fileSelected` with the first file or `undefined` |
| PickerState.SelectionReportsPrefix | addon/components/file-picker.js:247-251 | a selection reports a prefix of the chosen files in order: all of them in multiple mode, at most one in single mode, none for an empty list |
| PickerState.TagFor | addon/components/file-picker.js:137-138 | a preview image is tagged `multiple` iff `multiple` is truthy, else `single` |
| PickerState.HideInput | addon/components/file-picker.js:194-196 | the input becomes hidden; nothing else changes |
| PickerState.HidePreview | addon/components/file-picker.js:198-200 | the preview container becomes hidden; nothing else changes |
| PickerState.HideProgress | addon/components/file-picker.js:202-204 | the progress bar becomes hidden; nothing else changes |
| PickerState.ClearPreview | addon/components/file-picker.js:206-213 | afterwards there are no images, the preview is hidden, the dropzone shown and `removePreview` false; the input, the progress bar, the drag state and the logs are unchanged |
| PickerState.ClearPreviewIdempotent | addon/components/file-picker.js:206-213 | clearing twice gives the same state as clearing once |
| PickerState.DidInsertElement | addon/components/file-picker.js:43-48 | on insertion the input is hidden iff `hideFileInput` is truthy; preview and progress are hidden; the dropzone, the images and all non-view state are unchanged |
| PickerState.OnChange | addon/components/file-picker.js:69-80 | exactly one selection action is appended; an empty list leaves the state as after `clearPreview`, a non-empty one changes nothing but the log |
| PickerState.Drop | addon/components/file-picker.js:241-255 | exactly one selection action is appended; count becomes 0 and `over` false whatever they were; the view is unchanged |
| PickerState.DragEnter | addon/components/file-picker.js:257-268 | count rises by exactly 1; `over` is set when the new count is 1 and otherwise unchanged; single mode clears the preview on every enter, multiple mode leaves the view alone; the over/count invariant is kept |
| PickerState.DragLeave | addon/components/file-picker.js:270-278 | count falls by exactly 1 with no floor; `over` is cleared only when the new count is exactly 0; nothing else changes; the over/count invariant is kept |
| PickerState.ReadFile | addon/components/file-picker.js:154-159 | a read of the given file is recorded iff the method name passes the guard on this browser's reader; a failing guard changes nothing |
| PickerState.UpdatePreview | addon/components/file-picker.js:114-128 | single mode: images emptied, progress and preview shown, dropzone hidden, trigger lowered, one data-URL read of `files[0]` started; if the reader lacks `readAsDataURL` the thrown assertion stops it with the preview cleared, progress shown and no read; multiple mode: only the preview is shown |
| PickerState.AddPreviewImage | addon/components/file-picker.js:135-142 | the progress bar is hidden and exactly one image with the read data and the mode's tag is appended after the earlier images; nothing else changes |
| PickerState.RemovePreviewDidChange | addon/components/file-picker.js:215-219 | the observer leaves the trigger down; a raised trigger causes exactly a `clearPreview`, a lowered one nothing |
| PickerState.SetRemovePreview | addon/components/file-picker.js:212-219 | setting the trigger only acts on a change: raising it clears the preview and lowers it again, so it stays up only if it already was up |
| PickerState.TriggersInputClick | addon/components/file-picker.js:225-231 | the input is clicked iff `selectOnClick` is exactly `true` and the click did not land on the input; a truthy non-boolean does not qualify |
| PickerState.ClickDoesNotRetrigger | addon/components/file-picker.js:226-229 | a click whose target is the input (the one the component re-dispatches) triggers nothing, so one click opens the chooser once |
| PickerState.SinglePreviewCycle | addon/components/file-picker.js:114-142 | single mode, reader able to read data URLs: after `updatePreview` and the matching `addPreviewImage` the container holds exactly the new `single` image, the preview is shown, progress and dropzone hidden |
| PickerState.UpdatePreviewShowsProgressWithPreview | addon/components/file-picker.js:118-127 | while the preview read is under way the progress bar is visible, and the preview container is visible too exactly when the read could start |
| PickerState.MultiplePreviewsAccumulate | addon/components/file-picker.js:135-142 | in multiple mode two loaded images are appended in order after the existing ones; the component itself starts no read in multiple mode (line 116 is empty), so this path runs only when the host calls `addPreviewImage` directly |
| PickerRuns.StepKeepsOverTracksCount | addon/components/file-picker.js:241-278 | every handler keeps `over == (count > 0)` |
| PickerRuns.RunKeepsOverTracksCount | addon/components/file-picker.js:241-278 | for every event sequence, `over == (count > 0)` holds afterwards if it held before, even after the counter went negative |
| PickerRuns.OverTracksCountFromInit | addon/components/file-picker.js:31 | from a fresh component (count 0, no `over`), `over` holds iff the counter is positive after any events |
| PickerRuns.RunSendsExactlyTheSelections | addon/components/file-picker.js:69-75 | after any events the log is the earlier log followed by exactly one selection action per change or drop event, in event order |
| PickerRuns.RunNeverCancelsReads | addon/components/file-picker.js:114-125 | the reads started are the earlier ones followed by one data-URL read per single-mode preview request the reader can serve; none is ever removed |
| PickerRuns.OverlappingSinglePreviewsBothLand | addon/components/file-picker.js:114-142 | in single mode, two preview requests whose reads both resolve afterwards leave two `single` images in the container, not one |
| PickerRuns.RunCountIsNetDepth | addon/components/file-picker.js:257-278 | without drops the counter moves by exactly the enters minus the leaves, with no floor |
| PickerRuns.DropEndsGesture | addon/components/file-picker.js:253-254 | after any events, a final drop leaves count 0 and no `over` class |
| PickerRuns.RemovePreviewStaysDown | addon/components/file-picker.js:206-219 | once `removePreview` is false it is false after every event sequence |
| PickerRuns.UnmatchedLeaveHidesNextDrag | addon/components/file-picker.js:270-278 | a leave followed by an enter on a fresh component ends with count 0 and no `over` class |
| PickerRuns.RunAppend | addon/components/file-picker.js:241-278 | delivering two event sequences one after the other gives the same state as delivering their concatenation |
| PickerRuns.UnmatchedLeaveDelaysIndicator | addon/components/file-picker.js:257-278 | after one unmatched leave on a fresh component and without drops, `over` is present iff the later enters exceed the later leaves by at least two |
| PickerRuns.DragDuringPreviewReadHidesImage | addon/components/file-picker.js:114-142 | in single mode a drag entering during a preview read leaves the loaded `single` image in a hidden preview container, with the dropzone shown |
| FilePickerComponent.FilePicker.constructor | addon/components/file-picker.js:24-31 | a new component has count 0, no `over`, every element shown, no images, empty logs, and the given configuration and reader members |
| FilePickerComponent.FilePicker.HideInput | addon/components/file-picker.js:194-196 | the new state is `PickerState.HideInput` of the old |
| FilePickerComponent.FilePicker.HidePreview | addon/components/file-picker.js:198-200 | the new state is `PickerState.HidePreview` of the old |
| FilePickerComponent.FilePicker.HideProgress | addon/components/file-picker.js:202-204 | the new state is `PickerState.HideProgress` of the old |
| FilePickerComponent.FilePicker.ClearPreview | addon/components/file-picker.js:206-213 | the new state is `PickerState.ClearPreview` of the old: no images, preview hidden, dropzone shown, trigger down |
| FilePickerComponent.FilePicker.DidInsertElement | addon/components/file-picker.js:43-48 | the new state is `PickerState.DidInsertElement` of the old, reached through the same hide calls |
| FilePickerComponent.FilePicker.OnChange | addon/components/file-picker.js:69-80 | the new state is `PickerState.OnChange` of the old; exactly one selection action is appended |
| FilePickerComponent.FilePicker.Drop | addon/components/file-picker.js:241-255 | the new state is `PickerState.Drop` of the old; count 0, no `over`, one selection action appended |
| FilePickerComponent.FilePicker.DragEnter | addon/components/file-picker.js:257-268 | the new state is `PickerState.DragEnter` of the old; count rises by one, `over` set at one; the object invariant is kept |
| FilePickerComponent.FilePicker.DragLeave | addon/components/file-picker.js:270-278 | the new state is `PickerState.DragLeave` of the old; count falls by one, `over` cleared at zero; the object invariant is kept |
| FilePickerComponent.FilePicker.ReadFile | addon/components/file-picker.js:154-159 | the outcome is the guard's verdict on this browser's reader and the new state is `PickerState.ReadFile` of the old |
| FilePickerComponent.FilePicker.UpdatePreview | addon/components/file-picker.js:114-128 | the new state is `PickerState.UpdatePreview` of the old; the not-implemented message for `readAsDataURL` is returned exactly when single mode meets a reader without that method |
| FilePickerComponent.FilePicker.AddPreviewImage | addon/components/file-picker.js:135-142 | the new state is `PickerState.AddPreviewImage` of the old; one tagged image is appended |
| FilePickerComponent.FilePicker.RemovePreviewDidChange | addon/components/file-picker.js:215-219 | the new state is `PickerState.RemovePreviewDidChange` of the old; the trigger ends down |
| FilePickerComponent.FilePicker.SetRemovePreview | addon/components/file-picker.js:212-219 | the new state is `PickerState.SetRemovePreview` of the old |
| FilePickerComponent.FilePicker.Click | addon/components/file-picker.js:225-231 | the native input is clicked iff `selectOnClick` is exactly `true` and the target is not the input; the component's state is unchanged |

## Left out

- The jQuery selection of sub-elements, the HTML built for the `img` tag, and the binding of the `change` handler in `didInsertElement` and `willDestroyElement` (lines 50-62). The DOM is reduced to visibility flags and a list of images.
- `sendAjax` (lines 87-106): a network upload through `Ember.$.ajax`.
- The asynchronous part of `readFile` (lines 161-191): the promise, the `onload`/`onabort`/`onerror` callbacks and the FileReader itself. A read is recorded as a `ReadRequest`. Its result reaches the model only when the host of the model calls `AddPreviewImage`. A read of `undefined` (single mode, empty list) throws inside the promise, so it never produces an image.
- Progress percentages and `progressStyle` (lines 34-37, 99-101, 184-187): floating-point arithmetic with no zero guard, and CSS rendering.
- `dragOver` (lines 234-239): it only prevents the default action and sets the drop effect. `preventDefault` calls in the other drag handlers are left out for the same reason.
- The `multiple:multiple:single` class binding and the unused properties `url`, `upload`, `accept`, `preview`, `dropzone`, `progress`, `readAs` and `errors` (lines 19-32). No handler in the component reads them.
- Ember's observer machinery. `removePreviewDidChange` is an explicit method, and `SetRemovePreview` runs it when the value changes. Observers do not fire on initialisation. A `removePreview` bound to true before insertion therefore stays true until the next `clearPreview`, for example a single-mode `dragEnter`, an empty `onChange` or a single-mode `updatePreview`. Until then, the host setting it to true again is ignored and the preview stays in place.
- `sendAction` when the host bound no handler: the model records the action anyway.
- FileApi.CheckReadAs: `readFile` uses this corrected guard, not the one as written (see Findings). It differs only on names that are not read methods. Ember strips `assert` from production builds, where no method name is rejected at all. The model keeps the check of development builds.

## Findings

| source | as written | input that shows it | evidently intended | confidence | as-written member | corrected member |
|---|---|---|---|---|---|---|
| addon/components/file-picker.js:157-158 | the guard accepts any name whose property on the reader is truthy, except `abort` | `readAs = "addEventListener"` passes the assertion, and the reader then calls `addEventListener(file)` instead of reading | accept only those of `readAsArrayBuffer`, `readAsBinaryString`, `readAsDataURL` and `readAsText` (the four the doc comment lists) that the reader implements; `FileApi.AsWrittenAdmitsListenerMethod` exhibits the difference | medium, not executed | FileApi.AcceptedAsWritten | FileApi.CheckReadAs |
