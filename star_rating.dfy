// The rating widget (client/src/components/ui/star-rating.tsx): the rating
// is clamped to [0, maxRating], rounded to the nearest half star, and each
// of the `maxRating` slots drawn full, half or empty. Only what is drawn is
// modelled, not the markup or the size classes.

module StarRating {
  import opened Common

  const DefaultMaxRating := 5

  datatype Slot = Full | Half | Empty

  /** What the widget shows: the slots, and the value label when asked for. */
  datatype View = View(slots: seq<Slot>, shownValue: Option<real>)

  /** `Math.min(Math.max(0, rating), maxRating)`. */
  function Normalize(rating: real, maxRating: int): (r: real)
    ensures r <= maxRating as real
    ensures 0 <= maxRating ==> 0.0 <= r
    ensures 0.0 <= rating <= maxRating as real ==> r == rating
  {
    MinReal(MaxReal(0.0, rating), maxRating as real)
  }

  /** `Math.round`: the nearest integer, halves rounded up. */
  function Round(x: real): int {
    (x + 0.5).Floor
  }

  /** `Math.round(normalized * 2) / 2`. */
  function RoundHalf(x: real): real {
    (Round(2.0 * x) as real) / 2.0
  }

  /** The rounded rating is a whole number of half stars and lies within a
      quarter star of the rating it rounds. */
  lemma RoundHalfSpec(x: real)
    ensures (2.0 * RoundHalf(x)).Floor as real == 2.0 * RoundHalf(x)
    ensures -0.25 < RoundHalf(x) - x <= 0.25
  {
    var k := Round(2.0 * x);
    assert (k as real) <= 2.0 * x + 0.5 < (k as real) + 1.0;
    assert 2.0 * RoundHalf(x) == k as real;
  }

  /** Slot `value` (counted from 1) against the rounded rating. */
  function Classify(value: int, rounded: real): Slot {
    if value as real <= rounded then Full
    else if value as real - 0.5 == rounded then Half
    else Empty
  }

  /** `Array.from({ length: maxRating })`: no slots for a negative count. */
  function SlotCount(maxRating: int): nat {
    if maxRating < 0 then 0 else maxRating
  }

  function Render(rating: real, maxRating: int, showValue: bool): View {
    var normalized := Normalize(rating, maxRating);
    var rounded := RoundHalf(normalized);
    View(seq(SlotCount(maxRating), i => Classify(i + 1, rounded)),
         if showValue then Some(normalized) else None)
  }

  /** There are `maxRating` slots; the first `floor(rounded)` are full, the
      next one is half exactly when the rounded rating ends in a half, and the
      rest are empty; the label carries the clamped rating, not the rounded
      one. */
  lemma RenderSpec(rating: real, maxRating: int, showValue: bool)
    requires 0 <= maxRating
    ensures var v, rounded := Render(rating, maxRating, showValue), RoundHalf(Normalize(rating, maxRating));
      && |v.slots| == maxRating
      && (forall i :: 0 <= i < |v.slots| ==> (v.slots[i] == Full <==> i < rounded.Floor))
      && (forall i :: 0 <= i < |v.slots| ==>
            (v.slots[i] == Half <==> i == rounded.Floor && rounded.Floor as real != rounded))
      && v.shownValue == (if showValue then Some(Normalize(rating, maxRating)) else None)
  {
    var rounded := RoundHalf(Normalize(rating, maxRating));
    RoundHalfSpec(Normalize(rating, maxRating));
    var v := Render(rating, maxRating, showValue);
    forall i | 0 <= i < |v.slots|
      ensures (v.slots[i] == Full <==> i < rounded.Floor)
      ensures (v.slots[i] == Half <==> i == rounded.Floor && rounded.Floor as real != rounded)
    {
      assert v.slots[i] == Classify(i + 1, rounded);
      HalfStep(rounded, i);
    }
  }

  /** For a whole number of half stars r: slot i + 1 is full iff i < floor(r),
      and sits half a star above r iff i is floor(r) and r ends in a half. */
  lemma HalfStep(r: real, i: int)
    requires (2.0 * r).Floor as real == 2.0 * r
    ensures (i + 1) as real <= r <==> i < r.Floor
    ensures (i + 1) as real - 0.5 == r <==> i == r.Floor && r.Floor as real != r
  {
    var k, f := (2.0 * r).Floor, r.Floor;
    assert (f as real) <= r < (f as real) + 1.0;
    assert 2 * f <= k < 2 * f + 2 by {
      assert (k as real) == 2.0 * r;
    }
    if k == 2 * f {
      assert r == f as real;
    } else {
      assert r == f as real + 0.5;
    }
  }

  /** A rating of 3.3 is drawn as three and a half stars but labelled 3.3. */
  lemma LabelIsNotRounded()
    ensures Render(3.3, DefaultMaxRating, true).shownValue == Some(3.3)
    ensures Render(3.3, DefaultMaxRating, true).slots == [Full, Full, Full, Half, Empty]
  {
    assert (2.0 * 3.3 + 0.5).Floor == 7;
    assert RoundHalf(3.3) == 3.5;
    assert Normalize(3.3, DefaultMaxRating) == 3.3;
    var v := Render(3.3, DefaultMaxRating, true);
    assert v.slots == seq(5, i => Classify(i + 1, 3.5));
    assert |v.slots| == 5;
    assert v.slots[0] == Full && v.slots[1] == Full && v.slots[2] == Full;
    assert v.slots[3] == Half && v.slots[4] == Empty;
  }
}
