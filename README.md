# Chat composer and message log — a Dafny model

This project models the logic of the ChatBot sample's chat screen: the composer (draft text, pending
images, input-bar layout), the append-only message log it feeds, the user bubble's display rule,
the second, reusable composer view, and the image picker's outcome and downscaling.

One module per Swift file:

- `ChatModel` (ChatModel.swift): `ChatSender`, `ChatMessageType` and `ChatMessage` as datatypes, plus
  value stand-ins for `UIImage` (`Image`: opaque content, size, PNG byte count) and for UUID and Date.
  Datatypes give the source's guarantees by construction: a sender is exactly one of `User` and
  `Bot`; a message type is exactly one variant with its own payload, and empty image lists are
  allowed; a message never changes (all fields are `let` in Swift).
- `CameraPicker` (CameraPicker.swift): `ImageConstant`'s threshold-and-fit normalization, and
  `ImagePickerManager`'s delegate callbacks as methods that return the outcome they report
  (`DidSelect(images)` or `DidCancel`).
- `UserMessageCell` (UserMessageCell.swift): the cell as a class whose `Configure` method resets and
  then sets its two views, specified by the decision table `Presentation`.
- `ComposeView` (ComposeView.swift): `ReusableTextView` as a class. Its delegate calls are logged
  in two fields, `attachNotices` and `heightNotices`, so the contracts can say how often each
  notification fires and with what.
- `ChatBotViewController` (ChatBotViewController.swift): the screen as a class with the fields
  `draftText`, `pendingImages`, `messages`, `inputBarHeight`, `textScrolls` and `stripHidden`. It
  also holds the trimming rule, the layout rule `InputBarLayout`, and a lemma comparing this rule
  with `ComposeView.ReportedHeight`.

Inputs from outside the program are parameters. These are the measured text height
(`sizeThatFits`), the PNG byte count (`Image.pngBytes`, `None` when encoding fails), drawing into
an image context (`draw: (Image, Size) -> Option<Image>`), message ids and timestamps, and the
loads of the photo-library results (`PickerResult.loaded`).

The model follows the code where one might expect otherwise:

- Sending needs a non-blank trimmed text even when images are pending, so the screen never builds
  an image-only message. `Valid()` states this, and `SendScenarios` shows the blocked send.
- Removing a pending image with an index out of range traps in Swift. It is not a silent no-op, so
  `RemovePendingImage` requires a valid index.
- Removal does not lay the bar out again.
- A picker selection replaces the pending images. It is never merged with them.

## Model

| member | source | states |
|---|---|---|
| `ChatBotViewController.ChatBotViewController.OnClickSendButton` | ChatBot_Sample/ChatBot/ChatBotViewController.swift:70-85 | a blank trimmed draft changes nothing, even with images pending; otherwise exactly one user message is appended, `.textWithImages(text, pending)` when images are pending and `.text(text)` otherwise, with the untrimmed text; then the images and the text are cleared, the strip is hidden, the bar is set to 60 and the scroll flag is left alone; no image-only message ever enters the log |
| `ChatBotViewController.BlankIffAllWhitespace` | ChatBot_Sample/ChatBot/ChatBotViewController.swift:71 | the send guard (trimmed text is empty) holds exactly when every character is in `whitespacesAndNewlines` |
| `ChatBotViewController.ZeroWidthSpaceIsBlank` | ChatBot_Sample/ChatBot/ChatBotViewController.swift:71 | a draft made only of spaces, U+200B zero width spaces and line breaks is blank, and one with a letter is not |
| `ChatBotViewController.SentType` | ChatBot_Sample/ChatBot/ChatBotViewController.swift:74-80 | the sent content carries the draft text and exactly the pending images; it is text-with-images iff images are pending and never image-only |
| `ChatBotViewController.ChatBotViewController.InsertMessage` | ChatBot_Sample/ChatBot/ChatBotViewController.swift:108-110 | appends at the end, leaving earlier messages untouched; the new row is the old count and shows the message; the log keeps holding no image-only message |
| `ChatBotViewController.ChatBotViewController.NumberOfRows` | ChatBot_Sample/ChatBot/ChatBotViewController.swift:131-133 | the table has one row per logged message |
| `ChatBotViewController.ChatBotViewController.MessageAt` | ChatBot_Sample/ChatBot/ChatBotViewController.swift:135-137 | row `row` shows the logged message at that index |
| `ChatBotViewController.ChatBotViewController.NumberOfItems` | ChatBot_Sample/ChatBot/ChatBotViewController.swift:215-217 | the strip has one item per pending image |
| `ChatBotViewController.ChatBotViewController.ItemAt` | ChatBot_Sample/ChatBot/ChatBotViewController.swift:219-224 | item `item` of the strip shows the pending image at that index |
| `ComposeView.ReusableTextView.NumberOfItems` | ChatBot_Sample/ChatBot/ComposeView/ComposeView.swift:126-128 | the reusable composer's strip has one item per pending image |
| `ComposeView.ReusableTextView.ItemAt` | ChatBot_Sample/ChatBot/ComposeView/ComposeView.swift:130-134 | item `item` of that strip shows the pending image at that index |
| `ChatBotViewController.ChatBotViewController.AddUserMessage` | ChatBot_Sample/ChatBot/ChatBotViewController.swift:93-96 | appends one user `.text` message, keeping the log free of image-only messages |
| `ChatBotViewController.ChatBotViewController.AddBotMessage` | ChatBot_Sample/ChatBot/ChatBotViewController.swift:98-101 | appends one bot `.text` message, keeping the log free of image-only messages |
| `ChatBotViewController.ChatBotViewController.SendUserTextWithImages` | ChatBot_Sample/ChatBot/ChatBotViewController.swift:103-106 | appends one user `.textWithImages` message with the given images in order, keeping the log free of image-only messages |
| `ChatBotViewController.ChatBotViewController.constructor` | ChatBot_Sample/ChatBot/ChatBotViewController.swift:19-44 | an empty log and no pending images, a 50-point bar and a text view that does not scroll; the initial text comes from the storyboard |
| `ChatBotViewController.InputBarLayout` | ChatBot_Sample/ChatBot/ChatBotViewController.swift:161-181 | the bar height is the padded text height clamped to 120, plus exactly 60 when images are pending; the text scrolls iff the padded text exceeds 120; the strip shows iff images are pending |
| `ChatBotViewController.ChatBotViewController.TextViewDidChange` | ChatBot_Sample/ChatBot/ChatBotViewController.swift:161-181 | the step-by-step update sets height, scroll flag and strip visibility to `InputBarLayout` of the measured height and the pending images |
| `ChatBotViewController.ChatBotViewController.EditText` | ChatBot_Sample/ChatBot/ChatBotViewController.swift:161-166 | a text edit stores the text and lays the bar out again, leaving images and log alone |
| `ChatBotViewController.InputBarHeightMonotonic` | ChatBot_Sample/ChatBot/ChatBotViewController.swift:173-176 | the bar height never decreases as the text grows and never exceeds 120 plus the strip |
| `ChatBotViewController.StripAddsItsHeight` | ChatBot_Sample/ChatBot/ChatBotViewController.swift:168-175 | with the same text, pending images add exactly 60 points and do not change scrolling |
| `ChatBotViewController.ComposersAgreeUnlessStripOvershoots` | ChatBot_Sample/ChatBot/ComposeView/ComposeView.swift:85-101 | the reusable composer reports the screen's height exactly unless images are pending and the measured height is strictly between 45 and 105, where it reports 180 |
| `ChatBotViewController.ChatBotViewController.ImagePickerManagerDidSelect` | ChatBot_Sample/ChatBot/ChatBotViewController.swift:255-267 | a non-empty selection replaces the pending images with the normalized selection, same length and order; an empty one leaves them; the bar is laid out again in both cases; text and log are unchanged |
| `ChatBotViewController.RemovedAt` | ChatBot_Sample/ChatBot/ChatBotViewController.swift:228 | removal at an index drops exactly that element: one fewer element, the others in their relative order, the same multiset less the removed one |
| `ChatBotViewController.ChatBotViewController.RemovePendingImage` | ChatBot_Sample/ChatBot/ChatBotViewController.swift:227-230 | removal needs an index in range (Swift traps otherwise) and changes only `pendingImages`, not the bar's height |
| `ChatBotViewController.RemoveMiddleOfThree` | ChatBot_Sample/ChatBot/ChatBotViewController.swift:228 | removing the second of three images leaves the first and the third in order |
| `ComposeView.ReportedHeight` | ChatBot_Sample/ChatBot/ComposeView/ComposeView.swift:85-97 | without images the height is the padded text height clamped to 120; with images it is measured + 75 while that is at most 120, and otherwise exactly 180 |
| `ComposeView.ReportedHeightOvershoots` | ChatBot_Sample/ChatBot/ComposeView/ComposeView.swift:95-97 | with images the reported height can exceed what the content needs (180 for 125 needed points) |
| `ComposeView.ReportedHeightMonotonic` | ChatBot_Sample/ChatBot/ComposeView/ComposeView.swift:85-97 | the reported height never decreases as the text grows |
| `ComposeView.ReusableTextView.ResizeTextView` | ChatBot_Sample/ChatBot/ComposeView/ComposeView.swift:85-101 | reports `ReportedHeight` to the delegate exactly once, if a delegate is set, and changes nothing else |
| `ComposeView.ReusableTextView.TextViewDidChange` | ChatBot_Sample/ChatBot/ComposeView/ComposeView.swift:104-106 | a text change resizes, reporting the height once |
| `ComposeView.ReusableTextView.TextViewDidEndEditing` | ChatBot_Sample/ChatBot/ComposeView/ComposeView.swift:108-110 | the end of editing resizes, reporting the height once |
| `ComposeView.ReusableTextView.SetPendingImages` | ChatBot_Sample/ChatBot/ComposeView/ComposeView.swift:17-21 | every assignment to the pending images notifies the delegate once with the new array |
| `ComposeView.ReusableTextView.AttachImages` | ChatBot_Sample/ChatBot/ComposeView/ComposeView.swift:113-116 | replaces the pending images wholesale, never merging, and notifies once |
| `ComposeView.ReusableTextView.ClearImages` | ChatBot_Sample/ChatBot/ComposeView/ComposeView.swift:118-121 | leaves the pending images empty and notifies once with the empty array, even if they were empty already |
| `ComposeView.ReusableTextView.constructor` | ChatBot_Sample/ChatBot/ComposeView/ComposeView.swift:13-21 | a new view has no delegate, no images and has reported nothing |
| `ComposeView.ReusableTextView.SetDelegate` | ChatBot_Sample/ChatBot/ComposeView/ComposeView.swift:13 | setting the weak delegate changes nothing else |
| `UserMessageCell.Presentation` | ChatBot_Sample/ChatBot/TCells/UserMessageCell.swift:35-54 | the label shows the message's text if its variant has one; the image view shows the first image if there is any; each view is visible exactly when it holds something |
| `UserMessageCell.UserMessageCell.Configure` | ChatBot_Sample/ChatBot/TCells/UserMessageCell.swift:27-55 | after the reset-then-set sequence the cell shows `Presentation` of the message type alone: no trace of what the cell showed before (so configuring twice equals configuring once) and no dependence on the sender |
| `UserMessageCell.UserMessageCell.constructor` | ChatBot_Sample/ChatBot/TCells/UserMessageCell.swift:10-12 | a reused cell starts out showing whatever it showed before |
| `CameraPicker.ScaledSizeFits` | ChatBot_Sample/Utils/CameraPicker.swift:163-174 | over the reals the scaled size lies within the target box, keeps the original aspect ratio, and fills the box in at least one dimension |
| `CameraPicker.ScaleImageProportionally` | ChatBot_Sample/Utils/CameraPicker.swift:163-182 | when the image context yields an image at the scaled size that image is the result; when it yields nothing the original is returned |
| `CameraPicker.SetImageProportional` | ChatBot_Sample/Utils/CameraPicker.swift:150-161 | an image below 13,000,000 PNG bytes (or one that cannot be encoded) is returned unchanged; at or above the threshold the result is the image drawn at the scaled size when drawing succeeds and the original when it does not; a changed result was drawn at a size that fits 1600x1600 proportionally |
| `CameraPicker.Delivered` | ChatBot_Sample/Utils/CameraPicker.swift:124-137 | the loads never deliver more images than there are results |
| `CameraPicker.DeliveredMembership` | ChatBot_Sample/Utils/CameraPicker.swift:127-135 | an image is delivered iff some result that can load an image loaded it |
| `CameraPicker.ImagePickerManager.constructor` | ChatBot_Sample/Utils/CameraPicker.swift:19-24 | the selection limit defaults to 1 |
| `CameraPicker.ImagePickerManager.PresentPhotoLibrary` | ChatBot_Sample/Utils/CameraPicker.swift:66-69 | the library picker gets the manager's selection limit unchanged and an images-only filter |
| `CameraPicker.ImagePickerManager.ImagePickerControllerDidCancel` | ChatBot_Sample/Utils/CameraPicker.swift:81-84 | dismissing the camera reports a cancellation |
| `CameraPicker.ImagePickerManager.ImagePickerControllerDidFinishPicking` | ChatBot_Sample/Utils/CameraPicker.swift:86-96 | the camera selects exactly one image, the one under the edited or original key as `allowsEditing` says, and cancels iff that key holds no image |
| `CameraPicker.ImagePickerManager.PickerDidFinishPicking` | ChatBot_Sample/Utils/CameraPicker.swift:103-143 | cancels iff there are no results or the first cannot load an image; otherwise selects once, with exactly the successfully loaded images as a multiset, never more than the results and possibly none |

## Left out

- UIKit layout and presentation are not modelled. This covers constraints, flow layout, nib
  registration, animations, `scrollToBottom`, tap-to-dismiss, the action sheet,
  `isSourceTypeAvailable` and `reloadData`. None of it decides state.
- `sizeThatFits`, `pngData` and UIGraphics drawing are foreign calls. They appear as inputs: the
  measured height, `Image.pngBytes` and the `draw` parameter.
- Heights and the scale factor are reals. CGFloat rounding is not modelled, so `ScaledSizeFits`
  holds over the reals, not bit-for-bit in floating point.
- `CameraPicker.SetImageProportional`: requires a positive size for images at or above the byte
  threshold (`Normalizable`). The source divides by the width and height unguarded, and CGFloat
  division by zero gives infinity, which is not modelled.
- The loads run concurrently and are joined by a `DispatchGroup` and `DispatchQueue.main.async`.
  The model runs them sequentially in the order they start. The group's enter/leave counter is
  therefore not modelled.
- The load completion handlers append to the shared `images` array without synchronization, on
  whatever queue the item provider uses. Concurrent appends can race and lose or corrupt
  elements. The model assumes the appends do not interfere, so its promise of exactly the loaded
  images (as a multiset) holds only under that assumption.
- `CameraPicker.ImagePickerManager.PickerDidFinishPicking`: promises the delivered images only as
  a multiset. The source appends them in completion order, which is nondeterministic.
- UUID and Date generation are not modelled: ids and timestamps are parameters. The code enforces
  neither uniqueness nor monotonic time.
- The initial text of the message text view and the strip container's visibility before the
  first layout come from the storyboard. The constructor takes both as parameters.
- The whitespace set of the send guard follows CoreFoundation's implementation, which counts
  U+200B ZERO WIDTH SPACE as whitespace. Foundation's documentation of `whitespacesAndNewlines`
  (general category Z plus tab and line breaks) leaves U+200B out. The model does not capture a
  platform whose trimming follows the documented set.
- `ChatBotMessageCell` (the bot bubble) is not part of this model.
- `KeyboardManager`, `TestViewController`, `ViewController` and `ImagePreviewCell` are view glue
  and are not modelled. The removal that `ImagePreviewCell` triggers is `RemovePendingImage`.
- The alert's Cancel action reports a cancellation. It is UI, so only the camera's cancel path
  (`ImagePickerControllerDidCancel`) is modelled.
- Several behaviours are absent from the code, so the model does not add them:
  - image-only sends;
  - a bound of the pending images by the selection limit (only the system picker enforces it);
  - ignoring an out-of-range removal;
  - idempotent normalization.
