/** The integer multiline attributes SkeletonView attaches to a text view
    (Sources/Multilines/UITextView+Multiline.swift): values kept in a
    per-instance side table, read with a default and written through
    setters that clamp from above. */
module Multiline {

  /** MultilineAssociatedKeys: one distinct key per attribute. */
  datatype AssociatedKey =
    | LastLineFillingPercentKey
    | MultilineCornerRadiusKey
    | MultilineSpacingKey
    | TopPaddingKey

  /** SkeletonAppearance's defaults for the two integer attributes. */
  const DefaultLastLineFillPercent: int := 70
  const DefaultMultilineCornerRadius: int := 0

  /** The upper bounds the public setters apply. */
  const MaxLastLineFillPercent: int := 100
  const MaxLinesCornerRadius: int := 10

  /** Swift's `min` on two integers. */
  function Min(x: int, y: int): (r: int)
    ensures r <= x && r <= y
    ensures r == x || r == y
  {
    if y < x then y else x
  }

  /** `ao_get(pkey:) as? Int ?? defaultValue`: the stored value, or the
      default when the key was never set. */
  function StoredOr(store: map<AssociatedKey, int>, key: AssociatedKey, default: int): (r: int)
    ensures key in store ==> r == store[key]
    ensures key !in store ==> r == default
  {
    if key in store then store[key] else default
  }

  /** The public clamping setter, with the value it writes read back
      through the getter, keeps a value that is already within bounds:
      writing back what the getter returned changes nothing visible. */
  lemma ClampedWriteBack(store: map<AssociatedKey, int>, key: AssociatedKey, default: int, bound: int)
    requires StoredOr(store, key, default) <= bound
    ensures var v := StoredOr(store, key, default);
      StoredOr(store[key := Min(v, bound)], key, default) == v
  {
  }

  /** A write under one key is invisible under every other key. */
  lemma WriteIsolated(store: map<AssociatedKey, int>, key: AssociatedKey, other: AssociatedKey, v: int, default: int)
    requires key != other
    ensures StoredOr(store[key := v], other, default) == StoredOr(store, other, default)
  {
  }

  /** A text view's side table for the two integer attributes. */
  class MultilineTextView {
    var store: map<AssociatedKey, int>

    /** Both values read through the public getters stay within the public
        setters' bounds. Holds for a fresh view and is kept by the public
        setters; the internal setters can break it. */
    predicate WithinBounds()
      reads this
    {
      LastLineFillPercent() <= MaxLastLineFillPercent && LinesCornerRadius() <= MaxLinesCornerRadius
    }

    /** A fresh view has nothing stored and reads the defaults. */
    constructor ()
      ensures store == map[]
      ensures LastLineFillingPercent() == DefaultLastLineFillPercent
      ensures MultilineCornerRadius() == DefaultMultilineCornerRadius
      ensures WithinBounds()
    {
      store := map[];
    }

    /** The internal `lastLineFillingPercent` getter. */
    function LastLineFillingPercent(): (r: int)
      reads this
      ensures LastLineFillingPercentKey in store ==> r == store[LastLineFillingPercentKey]
      ensures LastLineFillingPercentKey !in store ==> r == DefaultLastLineFillPercent
    {
      StoredOr(store, LastLineFillingPercentKey, DefaultLastLineFillPercent)
    }

    /** The internal `lastLineFillingPercent` setter: stores the value as given. */
    method SetLastLineFillingPercent(v: int)
      modifies this
      ensures store == old(store)[LastLineFillingPercentKey := v]
      ensures LastLineFillingPercent() == v
      ensures MultilineCornerRadius() == old(MultilineCornerRadius())
    {
      store := store[LastLineFillingPercentKey := v];
    }

    /** The internal `multilineCornerRadius` getter. */
    function MultilineCornerRadius(): (r: int)
      reads this
      ensures MultilineCornerRadiusKey in store ==> r == store[MultilineCornerRadiusKey]
      ensures MultilineCornerRadiusKey !in store ==> r == DefaultMultilineCornerRadius
    {
      StoredOr(store, MultilineCornerRadiusKey, DefaultMultilineCornerRadius)
    }

    /** The internal `multilineCornerRadius` setter: stores the value as given. */
    method SetMultilineCornerRadius(v: int)
      modifies this
      ensures store == old(store)[MultilineCornerRadiusKey := v]
      ensures MultilineCornerRadius() == v
      ensures LastLineFillingPercent() == old(LastLineFillingPercent())
    {
      store := store[MultilineCornerRadiusKey := v];
    }

    /** The public `lastLineFillPercent` getter reads the internal one. */
    function LastLineFillPercent(): (r: int)
      reads this
      ensures LastLineFillingPercentKey !in store ==> r == DefaultLastLineFillPercent
      ensures LastLineFillingPercentKey in store ==> r == store[LastLineFillingPercentKey]
    {
      LastLineFillingPercent()
    }

    /** The public `lastLineFillPercent` setter: stores `min(v, 100)`, which
        is `v` itself at or below the bound (negatives included). */
    method SetLastLineFillPercent(v: int)
      modifies this
      ensures store == old(store)[LastLineFillingPercentKey := Min(v, MaxLastLineFillPercent)]
      ensures LastLineFillPercent() <= MaxLastLineFillPercent
      ensures v <= MaxLastLineFillPercent ==> LastLineFillPercent() == v
      ensures v > MaxLastLineFillPercent ==> LastLineFillPercent() == MaxLastLineFillPercent
      ensures LinesCornerRadius() == old(LinesCornerRadius())
      ensures old(WithinBounds()) ==> WithinBounds()
      // writing back what the getter returned leaves the stored table as it was
      ensures v == old(LastLineFillPercent()) && LastLineFillingPercentKey in old(store)
              && old(LastLineFillPercent()) <= MaxLastLineFillPercent
        ==> store == old(store)
    {
      SetLastLineFillingPercent(Min(v, MaxLastLineFillPercent));
    }

    /** The public `linesCornerRadius` getter reads the internal one. */
    function LinesCornerRadius(): (r: int)
      reads this
      ensures MultilineCornerRadiusKey !in store ==> r == DefaultMultilineCornerRadius
      ensures MultilineCornerRadiusKey in store ==> r == store[MultilineCornerRadiusKey]
    {
      MultilineCornerRadius()
    }

    /** The public `linesCornerRadius` setter: stores `min(v, 10)`. */
    method SetLinesCornerRadius(v: int)
      modifies this
      ensures store == old(store)[MultilineCornerRadiusKey := Min(v, MaxLinesCornerRadius)]
      ensures LinesCornerRadius() <= MaxLinesCornerRadius
      ensures v <= MaxLinesCornerRadius ==> LinesCornerRadius() == v
      ensures v > MaxLinesCornerRadius ==> LinesCornerRadius() == MaxLinesCornerRadius
      ensures LastLineFillPercent() == old(LastLineFillPercent())
      ensures old(WithinBounds()) ==> WithinBounds()
      ensures v == old(LinesCornerRadius()) && MultilineCornerRadiusKey in old(store)
              && old(LinesCornerRadius()) <= MaxLinesCornerRadius
        ==> store == old(store)
    {
      SetMultilineCornerRadius(Min(v, MaxLinesCornerRadius));
    }
  }
}
