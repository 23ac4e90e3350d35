/** The save/recover state machine SkeletonView adds to every view
    (Sources/Recoverable/Recoverable.swift): a view snapshots its visual
    state before the skeleton is shown and writes it back afterwards. */
module Recoverable {

  datatype Option<+T> = None | Some(value: T)

  /** UIKit values the model only compares for equality. */
  type Color(==)
  type Image(==)
  type TextAttributes(==)

  /** An attributed string: its plain characters and everything else about it. */
  datatype AttributedText = AttributedText(chars: string, attributes: TextAttributes)

  /** The dummy text the skeleton overlay puts into text-bearing views. */
  const Placeholder: string := " "

  /** The view classes that override save and recover (UIView itself is Plain). */
  datatype Kind = Plain | Label | TextView | ImageView

  predicate BearsText(kind: Kind) { kind == Label || kind == TextView }

  /** RecoverableViewState: the snapshot kept in a view's `viewState` slot. */
  datatype ViewState = ViewState(
    cornerRadius: int,
    clipToBounds: bool,
    backgroundColor: Option<Color>,
    attributedText: Option<AttributedText>,
    image: Option<Image>)

  /** The restorable properties of a view at one moment. */
  datatype Appearance = Appearance(
    cornerRadius: int,
    masksToBounds: bool,
    backgroundColor: Option<Color>,
    attributedText: Option<AttributedText>,
    image: Option<Image>)

  /** `RecoverableViewState(view:)`: the part of the snapshot every view takes. */
  function BaseViewState(a: Appearance): (s: ViewState)
    ensures s.cornerRadius == a.cornerRadius && s.clipToBounds == a.masksToBounds
    ensures s.backgroundColor == a.backgroundColor
    ensures s.attributedText == None && s.image == None
  {
    ViewState(a.cornerRadius, a.masksToBounds, a.backgroundColor, None, None)
  }

  /** The snapshot a save of a view of this kind leaves in `viewState`. */
  function SavedViewState(kind: Kind, a: Appearance): (s: ViewState)
    ensures s.cornerRadius == a.cornerRadius && s.clipToBounds == a.masksToBounds
    ensures s.backgroundColor == a.backgroundColor
    ensures s.attributedText == (if BearsText(kind) then a.attributedText else None)
    ensures s.image == (if kind == ImageView then a.image else None)
  {
    match kind
    case Plain => BaseViewState(a)
    case Label => BaseViewState(a).(attributedText := a.attributedText)
    case TextView => BaseViewState(a).(attributedText := a.attributedText)
    case ImageView => BaseViewState(a).(image := a.image)
  }

  /** `viewState?.attributedText`: nil when there is no snapshot. */
  function SnapshotText(vs: Option<ViewState>): Option<AttributedText> {
    if vs.Some? then vs.value.attributedText else None
  }

  /** `viewState?.image`: nil when there is no snapshot. */
  function SnapshotImage(vs: Option<ViewState>): Option<Image> {
    if vs.Some? then vs.value.image else None
  }

  /** `attributedText?.string == " "`: a view without text never shows the placeholder. */
  predicate ShowsPlaceholder(t: Option<AttributedText>) {
    t.Some? && t.value.chars == Placeholder
  }

  /** What the base `UIView.recoverViewState(forced:)` does to a view. */
  function BaseRecovered(a: Appearance, vs: Option<ViewState>, forced: bool): (r: Appearance)
    ensures vs.None? ==> r == a
    ensures vs.Some? ==> r.cornerRadius == vs.value.cornerRadius && r.masksToBounds == vs.value.clipToBounds
    // the colour is written only when it differs (or forced), so it always ends equal
    ensures vs.Some? ==> r.backgroundColor == vs.value.backgroundColor
    ensures r.attributedText == a.attributedText && r.image == a.image
  {
    match vs
    case None => a
    case Some(s) =>
      a.(cornerRadius := s.cornerRadius,
         masksToBounds := s.clipToBounds,
         backgroundColor := if s.backgroundColor != a.backgroundColor || forced then s.backgroundColor else a.backgroundColor)
  }

  /** The text a label or text view holds after its recover override. */
  function RecoveredText(t: Option<AttributedText>, vs: Option<ViewState>, forced: bool): (r: Option<AttributedText>)
    ensures ShowsPlaceholder(t) || forced ==> r == SnapshotText(vs)
    ensures !ShowsPlaceholder(t) && !forced ==> r == t
    ensures t.None? && !forced ==> r == None
    ensures vs.None? ==> r == None || r == t
  {
    if ShowsPlaceholder(t) || forced then SnapshotText(vs) else t
  }

  /** The image an image view holds after its recover override. */
  function RecoveredImage(i: Option<Image>, vs: Option<ViewState>, forced: bool): (r: Option<Image>)
    ensures i.None? || forced ==> r == SnapshotImage(vs)
    ensures i.Some? && !forced ==> r == i
    ensures vs.None? ==> r == None || r == i
    ensures !forced ==> (r == i || i.None?)
  {
    if i.None? || forced then SnapshotImage(vs) else i
  }

  /** What `recoverViewState(forced:)` does to a view of the given kind:
      the base routine, then the kind's override, which runs even when
      there is no snapshot. */
  function Recovered(kind: Kind, a: Appearance, vs: Option<ViewState>, forced: bool): (r: Appearance)
    ensures kind == Plain && vs.None? ==> r == a
    ensures vs.None? ==>
      r.cornerRadius == a.cornerRadius && r.masksToBounds == a.masksToBounds && r.backgroundColor == a.backgroundColor
    ensures vs.Some? ==>
      && r.cornerRadius == vs.value.cornerRadius
      && r.masksToBounds == vs.value.clipToBounds
      && r.backgroundColor == vs.value.backgroundColor
    ensures r.attributedText == if BearsText(kind) then RecoveredText(a.attributedText, vs, forced) else a.attributedText
    ensures r.image == if kind == ImageView then RecoveredImage(a.image, vs, forced) else a.image
  {
    var base := BaseRecovered(a, vs, forced);
    match kind
    case Plain => base
    case Label => base.(attributedText := RecoveredText(base.attributedText, vs, forced))
    case TextView => base.(attributedText := RecoveredText(base.attributedText, vs, forced))
    case ImageView => base.(image := RecoveredImage(base.image, vs, forced))
  }

  /** A forced recover right after a save gives back everything the save
      captured, whatever happened to the view in between. */
  lemma SaveThenForcedRecover(kind: Kind, saved: Appearance, now: Appearance)
    ensures var r := Recovered(kind, now, Some(SavedViewState(kind, saved)), true);
      && r.cornerRadius == saved.cornerRadius
      && r.masksToBounds == saved.masksToBounds
      && r.backgroundColor == saved.backgroundColor
      && r.attributedText == (if BearsText(kind) then saved.attributedText else now.attributedText)
      && r.image == (if kind == ImageView then saved.image else now.image)
  {
  }

  /** Unforced recovery of a text view: the saved text comes back when the
      view still shows the placeholder, and text set from outside stays. */
  lemma UnforcedTextRecovery(kind: Kind, saved: Appearance, now: Appearance)
    requires BearsText(kind)
    ensures var r := Recovered(kind, now, Some(SavedViewState(kind, saved)), false);
      r.attributedText == if ShowsPlaceholder(now.attributedText) then saved.attributedText else now.attributedText
  {
  }

  /** Unforced recovery of an image view: the saved image comes back when
      the view has none, and an image set from outside stays. */
  lemma UnforcedImageRecovery(saved: Appearance, now: Appearance)
    ensures var r := Recovered(ImageView, now, Some(SavedViewState(ImageView, saved)), false);
      r.image == if now.image.None? then saved.image else now.image
  {
  }

  /** Without a snapshot only the kind's own field can change, and only to
      nil: a forced recover clears the text or the image, and an unforced
      one clears a text that shows the placeholder. */
  lemma RecoverWithoutSnapshot(kind: Kind, a: Appearance, forced: bool)
    ensures var r := Recovered(kind, a, None, forced);
      && r.(attributedText := a.attributedText, image := a.image) == a
      && (!BearsText(kind) ==> r.attributedText == a.attributedText)
      && (kind != ImageView ==> r.image == a.image)
      && (r.attributedText == a.attributedText || r.attributedText == None)
      && (r.image == a.image || r.image == None)
      && ((forced || ShowsPlaceholder(a.attributedText)) && BearsText(kind) ==> r.attributedText == None)
      && (forced && kind == ImageView ==> r.image == None)
  {
  }

  /** Recovering again with a flag no more forceful than the last one
      changes nothing; in particular a forced recover twice is a forced
      recover once. */
  lemma RecoverIdempotent(kind: Kind, a: Appearance, vs: Option<ViewState>, forced: bool, again: bool)
    requires again ==> forced
    ensures Recovered(kind, Recovered(kind, a, vs, forced), vs, again) == Recovered(kind, a, vs, forced)
  {
  }

  /** The view after the caller recovers it once per flag, in order;
      recovery never touches the snapshot, so every call sees the same one. */
  function RecoveredRepeatedly(kind: Kind, a: Appearance, vs: Option<ViewState>, flags: seq<bool>): Appearance
    decreases |flags|
  {
    if flags == [] then a else RecoveredRepeatedly(kind, Recovered(kind, a, vs, flags[0]), vs, flags[1..])
  }

  /** Once a view is recovered with a flag, any number of further recovers
      that are no more forceful leave it as it is. */
  lemma {:induction false} RecoveryIsStable(kind: Kind, a: Appearance, vs: Option<ViewState>, forced: bool, flags: seq<bool>)
    requires forall i :: 0 <= i < |flags| ==> (flags[i] ==> forced)
    ensures RecoveredRepeatedly(kind, Recovered(kind, a, vs, forced), vs, flags) == Recovered(kind, a, vs, forced)
    decreases |flags|
  {
    if flags != [] {
      RecoverIdempotent(kind, a, vs, forced, flags[0]);
      RecoveryIsStable(kind, a, vs, forced, flags[1..]);
    }
  }

  /** A view of one of the four kinds, with the properties save and recover
      touch and its `viewState` slot. */
  class View {
    const kind: Kind
    var cornerRadius: int
    var masksToBounds: bool
    var backgroundColor: Option<Color>
    var attributedText: Option<AttributedText>
    var image: Option<Image>
    var viewState: Option<ViewState>

    /** The view's restorable properties as one value. */
    function Current(): Appearance
      reads this
    {
      Appearance(cornerRadius, masksToBounds, backgroundColor, attributedText, image)
    }

    /** A fresh view has no snapshot. */
    constructor (kind: Kind, initial: Appearance)
      ensures this.kind == kind && Current() == initial && viewState == None
    {
      this.kind := kind;
      cornerRadius := initial.cornerRadius;
      masksToBounds := initial.masksToBounds;
      backgroundColor := initial.backgroundColor;
      attributedText := initial.attributedText;
      image := initial.image;
      viewState := None;
    }

    /** `UIView.saveViewState()`: replaces any snapshot by a fresh base one. */
    method BaseSaveViewState()
      modifies this`viewState
      ensures viewState == Some(BaseViewState(Current()))
      ensures Current() == old(Current())
    {
      viewState := Some(BaseViewState(Current()));
    }

    /** `saveViewState()` with the label, text-view and image-view overrides:
        the base save, then the kind's own field written into the same
        snapshot through `viewState?.`. The earlier snapshot is lost. */
    method SaveViewState()
      modifies this`viewState
      ensures viewState == Some(SavedViewState(kind, Current()))
      ensures Current() == old(Current())
    {
      BaseSaveViewState();
      match kind {
        case Plain =>
        case Label =>
          if viewState.Some? { viewState := Some(viewState.value.(attributedText := attributedText)); }
        case TextView =>
          if viewState.Some? { viewState := Some(viewState.value.(attributedText := attributedText)); }
        case ImageView =>
          if viewState.Some? { viewState := Some(viewState.value.(image := image)); }
      }
    }

    /** `UIView.recoverViewState(forced:)`: returns at once without a
        snapshot; otherwise restores the layer properties and, when it
        differs or the call is forced, the background colour. */
    method BaseRecoverViewState(forced: bool)
      modifies this`cornerRadius, this`masksToBounds, this`backgroundColor
      ensures Current() == BaseRecovered(old(Current()), viewState, forced)
    {
      if viewState.None? {
        return;
      }
      var safeViewState := viewState.value;
      cornerRadius := safeViewState.cornerRadius;
      masksToBounds := safeViewState.clipToBounds;
      if safeViewState.backgroundColor != backgroundColor || forced {
        backgroundColor := safeViewState.backgroundColor;
      }
    }

    /** `recoverViewState(forced:)` with the overrides: the base routine,
        then the kind's own field, whether or not there was a snapshot.
        The snapshot itself is left in place. */
    method RecoverViewState(forced: bool)
      modifies this`cornerRadius, this`masksToBounds, this`backgroundColor, this`attributedText, this`image
      ensures Current() == Recovered(kind, old(Current()), viewState, forced)
      ensures viewState == old(viewState)
    {
      BaseRecoverViewState(forced);
      match kind {
        case Plain =>
        case Label =>
          attributedText := if ShowsPlaceholder(attributedText) || forced then SnapshotText(viewState) else attributedText;
        case TextView =>
          attributedText := if ShowsPlaceholder(attributedText) || forced then SnapshotText(viewState) else attributedText;
        case ImageView =>
          image := if image.None? || forced then SnapshotImage(viewState) else image;
      }
    }
  }
}
