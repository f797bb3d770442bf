# EmojiArt document and gesture core, in Dafny

EmojiArt is a collage app. The user drops emoji onto a canvas that can be panned and
zoomed over an optional background image. The emoji can then be moved, scaled,
multi-selected and deleted. This project models the two parts of the app that carry logic:

- **The document** (`document.dfy`, module `Document`, class `EmojiArtDocument`). It holds
  the `EmojiArt` model value: a background URL and an ordered array of emoji records
  (`id`, `text`, integer `x`, `y`, `size`). It also holds the published `backgroundImage`
  and the steady-state zoom and pan.
  - `moveEmoji` and `scaleEmoji` find the first record with the emoji's id and change one
    or two of its fields. With no such record they do nothing.
  - `removeEmoji` forwards to the model.
  - The `backgroundURL` setter stores the normalised URL and then always clears
    `backgroundImage`.
  - The accessors `emojis` and the `backgroundURL` getter are the functions `Emojis` and
    `BackgroundURL`.
- **The document view's controller state** (`document_view.dfy`, module `DocumentView`,
  class `EmojiArtDocumentView`). This is the selection, driven by tapping emoji and the
  background, plus the handlers that fan a gesture out to the selection:
  - the end of an emoji drag;
  - the end of a magnification, which scales the background when nothing is selected and
    the selected emoji otherwise;
  - the trash button;
  - the guard of `zoomToFit`;
  - the small derived values `emojiZoomFactor`, `emojiPanOffset` and `isLoading`.

`emoji_art.dfy` (module `EmojiArtModel`) holds the value types, plus the specification
functions that the methods are proved against, together with their lemmas:

- `FirstIndex`, `UpdateFirst` and `RemoveFirst`;
- `TruncToInt`, which stands for `Int(CGFloat)`: it truncates toward zero;
- `RoundHalfEven`, which stands for `rounded(.toNearestOrEven)`.

Modelling decisions:

- CGFloat values (offsets, scale factors, zoom, image and viewport sizes) are idealised as
  `real`. Swift's `Int` is an unbounded `int`.
- Some source is not part of this model: the `EmojiArt` type, its `addEmoji` and
  `removeEmoji`, and the `Array`/`Set` extensions `firstIndex(matching:)` and
  `contains(matching:)`. They are modelled as matching by `id`:
  - `firstIndex(matching:)` is the first position whose record has the emoji's id;
  - `contains(matching:)` is "some element has that id";
  - `EmojiArt.removeEmoji` removes the first record with that id.

  The document's intents therefore take the emoji's `id`.
- The selection is kept as a `set<int>` of ids. The source keeps a `Set<EmojiArt.Emoji>`,
  and Emoji's equality and hashing are not part of this model. The tap handler tests
  membership by id (`contains(matching:)`) but removes by value (`remove(emoji)`,
  EmojiArtDocumentView.swift:134-135). If `Hashable` compares every field, a selected emoji
  that was moved or scaled after it was selected passes the test, but the removal finds
  nothing, so a tap leaves it selected. The model removes by id and deselects it
  (`Toggled`, `SelectTap`).
- A `for` loop over a Swift `Set` visits its members in an unspecified order.
  `DocumentView.AnyMember` makes that choice nondeterministic, so the fan-out handlers are
  proved for every order.
- The calls the core cannot see are passed in as parameters:
  - the pasteboard and drop URL;
  - `URL.imageURL`, as a function `Url -> Url`;
  - the decoded stored document;
  - the image a fetch delivers;
  - the drag offset already divided by the zoom scale.

The model follows the code, including where it does less than one might expect:

- Nothing in the modelled code keeps ids unique, so with duplicated ids only the first record with the id is
  updated (`DuplicateAfterFirstUntouched`).
- Sizes are not clamped, so a size can become 0 (`ScaledSizeCanReachZero`).
- Trash does not remove the deleted ids from the selection (`Trash` keeps
  `selectedEmojis`).
- Scaling twice is not within one unit of scaling once by the product. The gap shows even
  with exact reals (`ScalingDoesNotCompose`).

## Model

| member | source | states |
|---|---|---|
| `EmojiArtModel.FirstIndex` | EmojiArtDocument.swift:73 | The lookup `moveEmoji` and `scaleEmoji` do: None exactly when no record has the id; otherwise a valid index whose record has the id, with no record before it having the id |
| `EmojiArtModel.SameIdsFirstIndex` | EmojiArtDocument.swift:73-80 | Two arrays whose records have the same ids position by position give the same first match for every id. So an intent that keeps ids does not change where the next intent lands |
| `EmojiArtModel.UniqueIdsFirst` | EmojiArtDocument.swift:73 | When ids are unique, every record is the one `firstIndex(matching:)` finds for its id |
| `EmojiArtModel.TruncToInt` | EmojiArtDocument.swift:74-75 | `Int(CGFloat)` truncates toward zero: for a non-negative offset the result lies in [0, r] within 1 of r; for a negative offset it lies in [r, 0] within 1 of r |
| `EmojiArtModel.TruncNegate` | EmojiArtDocument.swift:74-75 | Truncation toward zero is odd: the negated offset truncates to the negated delta |
| `EmojiArtModel.RoundHalfEven` | EmojiArtDocument.swift:81 | `rounded(.toNearestOrEven)`: the result is within 1/2 of the input, and is even when the input lies exactly halfway |
| `EmojiArtModel.RoundHalfEvenUnique` | EmojiArtDocument.swift:81 | Those two properties determine the rounding: any integer that satisfies them is the rounded value |
| `EmojiArtModel.ScaledSize` | EmojiArtDocument.swift:81 | The new size of a scaled emoji is within 1/2 of old size times factor |
| `EmojiArtModel.ScaleByOne` | EmojiArtDocument.swift:81 | Scaling by factor 1 keeps every size |
| `EmojiArtModel.ScaledSizeCanReachZero` | EmojiArtDocument.swift:81 | No lower bound on size: size 1 scaled by 0.25 becomes 0 |
| `EmojiArtModel.ScalingDoesNotCompose` | EmojiArtDocument.swift:81 | Rounding after each magnification: size 1 scaled by 0.5 and then by 4 gives 0, while scaling by 2 once gives 2 |
| `EmojiArtModel.Apply` | EmojiArtDocument.swift:72-83 | A move or a scale never changes a record's id or text |
| `EmojiArtModel.UpdateFirst` | EmojiArtDocument.swift:72-83 | What an intent on one id does. Length and ids are kept. An absent id leaves the array unchanged. The first record with the id gets the edit, and every other position is untouched |
| `EmojiArtModel.MoveFirstChangesOnlyPosition` | EmojiArtDocument.swift:72-77 | `moveEmoji` with a present id sets that record's x to x+dx and its y to y+dy. Its id, text and size, the length, and every other record are unchanged |
| `EmojiArtModel.ScaleFirstChangesOnlySize` | EmojiArtDocument.swift:79-83 | `scaleEmoji` with a present id changes only that record's size. Its id, text, x and y, and every other record, are unchanged |
| `EmojiArtModel.DuplicateAfterFirstUntouched` | EmojiArtDocument.swift:72-83 | When ids are duplicated, a record after the first one with its id is never updated |
| `EmojiArtModel.MoveRoundTrip` | EmojiArtDocument.swift:74-75 | Moving by (dx, dy) and then by (-dx, -dy) restores the whole array |
| `EmojiArtModel.MoveOffsetRoundTrip` | EmojiArtDocument.swift:72-77 | The same round trip holds for CGFloat offsets w and -w, because the truncation goes toward zero |
| `EmojiArtModel.RemoveFirst` | EmojiArtDocument.swift:85-87 | Removing an id: an absent id changes nothing. Otherwise the array is one shorter, with the first record that has the id taken out and the rest in order |
| `Document.EmojiArtDocument.constructor` | EmojiArtDocument.swift:32-46 | Starts from the stored model, or the empty one when nothing could be decoded. There is no image, the zoom is 1 and the pan is zero |
| `Document.EmojiArtDocument.Emojis` | EmojiArtDocument.swift:51 | `emojis` is the model's emoji array, in drawing order |
| `Document.EmojiArtDocument.BackgroundURL` | EmojiArtDocument.swift:54-56 | The `backgroundURL` getter is the model's stored background URL |
| `Document.EmojiArtDocument.SetBackgroundURL` | EmojiArtDocument.swift:53-60 | Stores the normalised URL, or nil. The emoji are unchanged and `backgroundImage` is nil afterwards, for both nil and non-nil URLs |
| `Document.EmojiArtDocument.FetchBackgroundImageData` | EmojiArtDocument.swift:89-90 | The synchronous part of the fetch: it clears `backgroundImage` and changes nothing else |
| `Document.EmojiArtDocument.ReceiveBackgroundImage` | EmojiArtDocument.swift:93-96 | The fetch's sink publishes the delivered image, or nil, as `backgroundImage` |
| `Document.EmojiArtDocument.MoveEmoji` | EmojiArtDocument.swift:72-77 | The emoji array becomes `UpdateFirst` with the truncated offset. The URL, image, zoom and pan are unchanged |
| `Document.EmojiArtDocument.ScaleEmoji` | EmojiArtDocument.swift:79-83 | The emoji array becomes `UpdateFirst` with the rounded scaled size. Nothing else changes |
| `Document.EmojiArtDocument.RemoveEmoji` | EmojiArtDocument.swift:85-87 | The emoji array becomes `RemoveFirst`. Nothing else changes |
| `DocumentView.Toggled` | EmojiArtDocumentView.swift:131-140 | After a tap, the tapped id is in the selection exactly when it was not. Every other id keeps its membership |
| `DocumentView.ToggleTwice` | EmojiArtDocumentView.swift:131-140 | Two taps on the same emoji restore the selection |
| `DocumentView.Unselected` | EmojiArtDocumentView.swift:36-40 | What trash leaves: it is no longer than the array, every record kept has an unselected id, and every record with an unselected id is kept |
| `DocumentView.UnselectedCount` | EmojiArtDocumentView.swift:36-40 | Trash keeps every copy of an unselected record, as many as the array had, and no copy of a selected one |
| `DocumentView.UnselectedAppend` | EmojiArtDocumentView.swift:36-40 | Filtering distributes over concatenation, so the kept records stay in the order they had in the array |
| `DocumentView.UnselectedSnoc` | EmojiArtDocumentView.swift:36-40 | Filtering one more record of the snapshot appends it exactly when its id is unselected |
| `DocumentView.RemoveFirstAfterUnselected` | EmojiArtDocumentView.swift:36-40 | Once the records before a selected one have been filtered, `removeEmoji` removes that very record. This holds even with duplicated ids |
| `DocumentView.TrashStep` | EmojiArtDocumentView.swift:36-40 | One iteration of the trash loop over the snapshot extends the filtered prefix by one record |
| `DocumentView.UpdateSelected` | EmojiArtDocumentView.swift:171-175 | The array after an edit fanned out over a selection. Ids and length are kept. A record that is the first with a selected id is edited; every other record is untouched |
| `DocumentView.UpdateSelectedStep` | EmojiArtDocumentView.swift:172-173 | Sending the edit for one more selected id extends the fan-out by that id, whichever order the set is visited in |
| `DocumentView.UpdateSelectedUnique` | EmojiArtDocumentView.swift:171-175 | With unique ids, a fan-out edits exactly the records whose id is selected |
| `DocumentView.UpdateNoneSelected` | EmojiArtDocumentView.swift:205-213 | A fan-out over an empty selection changes nothing |
| `DocumentView.AnyMember` | EmojiArtDocumentView.swift:172 | The next member a `for` loop over a non-empty set visits is a member of the set |
| `DocumentView.CanFit` | EmojiArtDocumentView.swift:227 | The guard of `zoomToFit` holds exactly when there is an image and its width and height and the viewport's width and height are all positive |
| `DocumentView.Min` | EmojiArtDocumentView.swift:231 | `min` is at most each argument and equal to one of them |
| `DocumentView.FitZoom` | EmojiArtDocumentView.swift:228-231 | `min(hZoom, vZoom)` is positive. The image scaled by it fits inside the viewport and fills it along at least one axis |
| `DocumentView.FitZoomExample` | EmojiArtDocumentView.swift:226-233 | A 400 x 100 image in a 200 x 100 viewport gets zoom 0.5 |
| `DocumentView.EmojiArtDocumentView.constructor` | EmojiArtDocumentView.swift:16-19 | A new view has an empty selection and neutral live gesture values |
| `DocumentView.EmojiArtDocumentView.ZoomScale` | EmojiArtDocumentView.swift:195-197 | The displayed zoom is the steady zoom times the live magnification, so it is the steady zoom when no magnification is in progress |
| `DocumentView.EmojiArtDocumentView.EmojiZoomFactor` | EmojiArtDocumentView.swift:146-152 | The live zoom factor is the gesture's value for a selected emoji and 1 for an unselected one |
| `DocumentView.EmojiArtDocumentView.EmojiPanOffset` | EmojiArtDocumentView.swift:158-164 | The live pan offset is the gesture's offset times the zoom scale for a selected emoji and zero for an unselected one |
| `DocumentView.EmojiArtDocumentView.IsLoading` | EmojiArtDocumentView.swift:178-180 | True exactly when the background URL is non-nil and the background image is nil |
| `DocumentView.EmojiArtDocumentView.SelectTap` | EmojiArtDocumentView.swift:131-140 | The selection becomes `Toggled` of the old selection and the tapped id. The document is untouched |
| `DocumentView.EmojiArtDocumentView.BackgroundTap` | EmojiArtDocumentView.swift:184-189 | The selection becomes empty, so every emoji's live zoom factor is 1 and its live pan offset is zero |
| `DocumentView.EmojiArtDocumentView.Trash` | EmojiArtDocumentView.swift:35-41 | Removes exactly the document emoji whose id is selected and keeps the others in order. The selection and the background URL are unchanged |
| `DocumentView.EmojiArtDocumentView.EmojiPanEnded` | EmojiArtDocumentView.swift:171-175 | Every selected emoji is moved by the same truncated delta and unselected emoji are unchanged (`UpdateSelected` with a move) |
| `DocumentView.EmojiArtDocumentView.ZoomChanged` | EmojiArtDocumentView.swift:199-204 | The live magnification goes to the background's gesture value when nothing is selected and to the emoji's otherwise. Every selected emoji then shows that factor |
| `DocumentView.EmojiArtDocumentView.ZoomEnded` | EmojiArtDocumentView.swift:205-214 | With an empty selection, only the steady zoom changes and it is multiplied by the final scale. The emoji are unchanged. Otherwise the steady zoom is unchanged and only the selected emoji's sizes change |
| `DocumentView.EmojiArtDocumentView.ZoomToFit` | EmojiArtDocumentView.swift:226-233 | With no image, or any image or viewport dimension ≤ 0, nothing changes. Otherwise the pan becomes zero and the zoom becomes `FitZoom` |
| `DocumentView.EmojiArtDocumentView.ConfirmBackgroundPaste` | EmojiArtDocumentView.swift:115-117 | The background URL becomes the normalised pasted URL, or nil when nothing was pasted, and the background image is nil. The view is loading afterwards exactly when a URL was pasted, and the emoji are unchanged |

## Left out

- `addEmoji` (EmojiArtDocument.swift:68-70): `EmojiArt.addEmoji` and its id allocation are not part of this model.
- The asynchronous fetch through `URLSession` and Combine, and its cancellation (EmojiArtDocument.swift:91-97). It is asynchronous and depends on foreign cancellation semantics. Only the clearing of the image and the final assignment of a delivered image are modelled.
  - Setting the URL to nil does not cancel a fetch that is in flight. The model therefore states no "last request wins" property.
- Persistence in `UserDefaults` and the JSON codec (EmojiArtDocument.swift:32-39). The `EmojiArt` codec is not part of this model, so the constructor takes the decoded value.
- `URL.imageURL` normalisation is an unseen extension. It is a parameter of `SetBackgroundURL`.
- CGFloat geometry, which is floating-point numerics:
  - `panOffset`, `position(for:in:)` and the drop-location conversion (EmojiArtDocumentView.swift:82-85, 239-263);
  - the background `panGesture`;
  - the `updating` closures of the two drag gestures, which divide by `zoomScale`.

  The drag handler takes its offset already in document space. `ZoomScale` is kept only as the product the live pan offset uses.
- Floating-point rounding itself: `real` stands for CGFloat. So `RoundHalfEven` and `TruncToInt` are exact, where the source rounds twice (the product, then the rounding).
- `Document.EmojiArtDocument.MoveEmoji`: Swift's 64-bit `Int` traps on overflow of `+=`, and `Int(CGFloat)` traps on an out-of-range value. Neither trap is modelled, because `int` is unbounded.
- `Document.EmojiArtDocument.ScaleEmoji`: the trap of `Int(...)` on an out-of-range or non-finite size is not modelled, for the same reason.
- `@GestureState` resetting to its initial value when a gesture ends is SwiftUI behaviour and is not modelled. Neither are the gesture composition (`exclusively(before:)`), the double-tap recogniser and `onReceive`, which decide when the handlers run.
- The view body: layout, the palette strip, alerts and their text, the pasteboard, and the drag-and-drop item providers (EmojiArtDocumentView.swift:21-121, 265-275). This is UI plumbing. Only the alert's OK action is modelled.
- The document's identity: its `id`, `==` and `hash(into:)` (EmojiArtDocument.swift:14-23, 33). They compare and hash a `UUID`, which only the document store uses, and nothing in the modelled code reads them.
- `PaletteChooser.swift` (view code; its palette operations live in a file that is not part of this model), `Grid.swift` (layout) and `Spinning.swift` (animation).
- The selection's element type: the source stores `Emoji` values and removes them by value equality. Emoji's `Hashable` conformance is not part of this model, so the selection is a set of ids.
