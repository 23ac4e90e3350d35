# SkeletonView: view-state recovery and multiline attributes

This project models two pieces of per-view state logic in SkeletonView, a
UIKit library that draws shimmering placeholder "skeletons" over views and
restores them afterwards. It proves properties of both models.

- `recoverable.dfy` (module `Recoverable`) covers the save/recover state
  machine. A `View` has a `kind`: plain `UIView`, `UILabel`, `UITextView` or
  `UIImageView`. It holds the properties the library touches:
  `cornerRadius`, `masksToBounds`, `backgroundColor`, `attributedText` and
  `image`. It also holds the optional `viewState` snapshot.
  - `SaveViewState` runs the base save and then the kind's override.
  - `RecoverViewState(forced)` does the same: the base recover, then the
    kind's override.
  - Each method is specified by a pure function on values
    (`SavedViewState`, `Recovered`). The lemmas about those functions state
    the round trip, the independence from outside changes and idempotence.
- `multiline.dfy` (module `Multiline`) covers the integer multiline
  attributes of a text view.
  - They live in a per-instance side table, a `map` keyed by the distinct
    associated keys.
  - Reads fall back to the appearance default.
  - The public setters clamp from above with `min`.

Colours, images and text attributes are opaque types that only support
equality. An attributed string is its characters plus opaque attributes.

### Behaviour kept as written

The guard in the base recover (`Recoverable.swift:29`) returns only from
the base method. The label, text-view and image-view overrides still run
when there is no snapshot, and they assign `viewState?.…`, which is nil.
So a forced recover without a snapshot clears a label's or text view's
text and an image view's image. An unforced one clears a text that is
exactly `" "`. Recover without a save is therefore a no-op only for plain views;
the model follows the code (`Recovered`, `RecoverWithoutSnapshot`).

## Model

| member | source | states |
|---|---|---|
| `Recoverable.View.constructor` | Sources/Recoverable/Recoverable.swift:19-22 | a view starts with no snapshot; its properties are the given ones |
| `Recoverable.SavedViewState` | Sources/Recoverable/Recoverable.swift:41-67 | a snapshot holds exactly the current corner radius, clipping and background colour; labels and text views add their attributed text, image views their image; every other slot is nil |
| `Recoverable.BaseViewState` | Sources/Recoverable/Recoverable.swift:25 | the base capture holds exactly the current corner radius, clipping and background colour, with no text and no image |
| `Recoverable.View.BaseSaveViewState` | Sources/Recoverable/Recoverable.swift:24-26 | the base save replaces any earlier snapshot with the base capture of the current properties and changes no property |
| `Recoverable.View.SaveViewState` | Sources/Recoverable/Recoverable.swift:41-68 | save (base, then the override on the same snapshot) leaves `SavedViewState` of the current properties; the earlier snapshot is lost and no property changes |
| `Recoverable.BaseRecovered` | Sources/Recoverable/Recoverable.swift:28-37 | without a snapshot nothing changes; with one, corner radius and clipping take the snapshot's values, the background colour ends equal to the snapshot's whether or not the call is forced, and text and image are untouched |
| `Recoverable.View.BaseRecoverViewState` | Sources/Recoverable/Recoverable.swift:28-37 | the base recover moves the view to `BaseRecovered` of its old properties and touches only the three base properties |
| `Recoverable.RecoveredText` | Sources/Recoverable/Recoverable.swift:48-60 | for the label (line 48) and the text view (line 60): when the text is the placeholder `" "` or the call is forced, the text becomes the snapshot's text (nil without a snapshot); otherwise it stays; a nil text never counts as the placeholder |
| `Recoverable.RecoveredImage` | Sources/Recoverable/Recoverable.swift:72 | when the image is nil or the call is forced, the image becomes the snapshot's image (nil without a snapshot); a non-nil image stays on an unforced call |
| `Recoverable.Recovered` | Sources/Recoverable/Recoverable.swift:46-73 | a plain view without a snapshot is unchanged; base properties follow `BaseRecovered`; labels and text views then apply `RecoveredText`, image views `RecoveredImage`, even without a snapshot; other properties stay |
| `Recoverable.View.RecoverViewState` | Sources/Recoverable/Recoverable.swift:46-73 | recover moves the view to `Recovered` of its old properties and never modifies `viewState` |
| `Recoverable.SaveThenForcedRecover` | Sources/Recoverable/Recoverable.swift:24-73 | a forced recover after a save gives back every captured property, whatever was changed in between; properties not captured stay as they are now |
| `Recoverable.UnforcedTextRecovery` | Sources/Recoverable/Recoverable.swift:41-60 | for a label or text view, an unforced recover after a save restores the saved text when the view shows `" "` and keeps any other current text |
| `Recoverable.UnforcedImageRecovery` | Sources/Recoverable/Recoverable.swift:65-72 | for an image view, an unforced recover after a save restores the saved image when the view has none and keeps any current image |
| `Recoverable.RecoverWithoutSnapshot` | Sources/Recoverable/Recoverable.swift:46-73 | without a snapshot only the kind's own text or image can change, and only to nil: every other property (a label's image, a plain view's text) stays; a forced call clears the kind's text or image, and an unforced one clears a text that is `" "` |
| `Recoverable.RecoverIdempotent` | Sources/Recoverable/Recoverable.swift:28-73 | a second recover that is no more forceful than the first changes nothing; forced twice equals forced once |
| `Recoverable.RecoveryIsStable` | Sources/Recoverable/Recoverable.swift:28-73 | after one recover, any sequence of further recovers that are no more forceful leaves the view as it is |
| `Multiline.Min` | Sources/Multilines/UITextView+Multiline.swift:10 | `min` returns one of its arguments and is at most both |
| `Multiline.StoredOr` | Sources/Multilines/UITextView+Multiline.swift:36 | a read returns the stored value when the key is set and the default otherwise |
| `Multiline.ClampedWriteBack` | Sources/Multilines/UITextView+Multiline.swift:8-11 | writing back through the clamping setter a value the getter returned, when it is within the bound, reads back as the same value |
| `Multiline.WriteIsolated` | Sources/Multilines/ContainsMultilineText.swift:6-9 | a write under one key leaves the value read under every other key unchanged |
| `Multiline.MultilineTextView.constructor` | Sources/Multilines/UITextView+Multiline.swift:33-47 | a fresh text view has an empty table, reads both defaults, and is within the public bounds |
| `Multiline.MultilineTextView.LastLineFillingPercent` | Sources/Multilines/UITextView+Multiline.swift:34-37 | the stored fill percent, or the appearance default 70 when unset |
| `Multiline.MultilineTextView.SetLastLineFillingPercent` | Sources/Multilines/UITextView+Multiline.swift:38 | stores the value unclamped under its own key; the getter returns it; the corner radius is unchanged |
| `Multiline.MultilineTextView.MultilineCornerRadius` | Sources/Multilines/UITextView+Multiline.swift:42-45 | the stored corner radius, or the appearance default 0 when unset |
| `Multiline.MultilineTextView.SetMultilineCornerRadius` | Sources/Multilines/UITextView+Multiline.swift:46 | stores the value unclamped under its own key; the getter returns it; the fill percent is unchanged |
| `Multiline.MultilineTextView.LastLineFillPercent` | Sources/Multilines/UITextView+Multiline.swift:9 | the public getter reads the stored fill percent or the default |
| `Multiline.MultilineTextView.SetLastLineFillPercent` | Sources/Multilines/UITextView+Multiline.swift:10 | stores `min(v, 100)`: the read-back value is at most 100, equals `v` at or below 100 (negatives included) and is 100 above it; the corner radius is unchanged; the public bounds are kept; writing back the current in-bounds stored value leaves the table unchanged |
| `Multiline.MultilineTextView.LinesCornerRadius` | Sources/Multilines/UITextView+Multiline.swift:15 | the public getter reads the stored corner radius or the default |
| `Multiline.MultilineTextView.SetLinesCornerRadius` | Sources/Multilines/UITextView+Multiline.swift:16 | stores `min(v, 10)`: the read-back value is at most 10, equals `v` at or below 10 (negatives included) and is 10 above it; the fill percent is unchanged; the public bounds are kept; writing back the current in-bounds stored value leaves the table unchanged |

## Left out

- `skeletonLineSpacing`, `skeletonTopPadding`, `multilineSpacing` and `topPadding` are left out because they are `CGFloat` values. Their keys are still part of `AssociatedKey`, because those keys share the side table.
- The Objective-C associated-object store behind `ao_get`, `ao_set` and `ao_setOptional` is not modelled. `viewState` is a plain optional field, and the multiline table is a plain `map` field, with no weak references and no lifetime tie to the object.
- The `as? Int` cast in the getters can fail on a value of another type. The table holds only integers, so the model never meets that case.
- `SkeletonAppearance.default` is a mutable singleton and is not part of this model. Its shipped defaults, 70 for the fill percent and 0 for the corner radius, are constants here.
- `RecoverableViewState` is not part of this model; its definition is not shown. It is treated as a record with the five fields the code uses. Its initializer is taken to capture corner radius, clipping and background colour, with no text and no image.
- `cornerRadius` is a `CGFloat` in UIKit and is an `int` here. Only equality and assignment are used on it.
- `Recoverable.RecoveredText`: a text view's `attributedText` is an implicitly unwrapped optional, so a nil text would trap at `Recoverable.swift:60`. UIKit never returns nil there. The model treats a nil text view text like a nil label text (it does not match `" "`). UIKit also turns a nil assigned to a text view's `attributedText` into an empty text, which reads back as empty rather than nil; the model stores nil. Neither text matches `" "`, so save and recover behave the same either way.
- UIKit rendering, `@IBInspectable`, `@objc` dispatch and any side effect of assigning a property are left out. The subclass overrides are selected by the `kind` tag instead of dynamic dispatch.
- Threading is left out; everything runs on the main thread.
