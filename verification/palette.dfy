/** The fixed colour palette of the funnel chart and the per-count choice of colours
    (`colorpal` and `getColorPal` in funnel.go). */
module Palette {

  newtype uint8 = x: int | 0 <= x < 256

  /** An opaque 8-bit-per-channel colour, as Go's `color.RGBA`. */
  datatype RGBA = RGBA(r: uint8, g: uint8, b: uint8, a: uint8)

  /** The ten palette entries, from the darkest blue to the lightest. */
  const Colorpal: seq<RGBA> := [
    RGBA(13, 71, 161, 255),
    RGBA(21, 101, 192, 255),
    RGBA(25, 118, 210, 255),
    RGBA(30, 136, 229, 255),
    RGBA(33, 150, 243, 255),
    RGBA(66, 165, 245, 255),
    RGBA(100, 181, 246, 255),
    RGBA(144, 202, 249, 255),
    RGBA(187, 222, 251, 255),
    RGBA(227, 242, 253, 255)
  ]

  /** `b` is strictly lighter than `a`: every colour channel is larger. */
  predicate Lighter(a: RGBA, b: RGBA) {
    a.r < b.r && a.g < b.g && a.b < b.b
  }

  /** Each element is larger than the one before it. */
  predicate StrictlyIncreasing(s: seq<nat>) {
    forall i :: 0 < i < |s| ==> s[i - 1] < s[i]
  }

  /** Each colour is lighter than the one before it. */
  predicate Lightening(s: seq<RGBA>) {
    forall i :: 0 < i < |s| ==> Lighter(s[i - 1], s[i])
  }

  /** The palette is a dark-to-light gradient, and it is fully opaque. */
  lemma PaletteIsGradient()
    ensures |Colorpal| == 10
    ensures forall i, j :: 0 <= i < j < |Colorpal| ==> Lighter(Colorpal[i], Colorpal[j])
    ensures forall i :: 0 <= i < |Colorpal| ==> Colorpal[i].a == 255
  {
  }

  /** The palette positions `getColorPal` picks for `n` segments: the hand-tuned table for
      1 through 9, and every position for any other count, 0 and 10 included. */
  function ColorIndices(n: int): (r: seq<nat>)
    ensures |r| == if 1 <= n <= 9 then n else |Colorpal|
    ensures forall i :: 0 <= i < |r| ==> r[i] < |Colorpal|
    ensures StrictlyIncreasing(r)
    ensures |r| >= 2 ==> r[0] == 0 && r[|r| - 1] == |Colorpal| - 1
    ensures n == 1 ==> r == [|Colorpal| - 1]
  {
    if n == 1 then [9]
    else if n == 2 then [0, 9]
    else if n == 3 then [0, 4, 9]
    else if n == 4 then [0, 3, 6, 9]
    else if n == 5 then [0, 3, 5, 7, 9]
    else if n == 6 then [0, 2, 4, 6, 8, 9]
    else if n == 7 then [0, 1, 3, 4, 6, 8, 9]
    else if n == 8 then [0, 1, 3, 4, 5, 6, 8, 9]
    else if n == 9 then [0, 1, 2, 3, 4, 5, 6, 8, 9]
    else [0, 1, 2, 3, 4, 5, 6, 7, 8, 9]
  }

  /** The colours used for a funnel of `n` drawn segments. */
  function GetColorPal(n: int): (r: seq<RGBA>)
    ensures 1 <= n <= 9 ==> |r| == n
    ensures !(1 <= n <= 9) ==> r == Colorpal
    ensures forall i :: 0 <= i < |r| ==> r[i] in Colorpal
    ensures Lightening(r)
    ensures |r| >= 2 ==> r[0] == Colorpal[0] && r[|r| - 1] == Colorpal[|Colorpal| - 1]
    ensures n == 1 ==> r == [Colorpal[|Colorpal| - 1]]
  {
    var idx := ColorIndices(n);
    PaletteIsGradient();
    var r := seq(|idx|, i requires 0 <= i < |idx| => Colorpal[idx[i]]);
    assert !(1 <= n <= 9) ==> r == Colorpal by {
      if !(1 <= n <= 9) {
        assert forall i :: 0 <= i < |idx| ==> idx[i] == i;
      }
    }
    r
  }

  /** Adjacent increase implies increase between any two positions. */
  lemma {:induction false} IncreasingPairwise(s: seq<nat>, i: nat, j: nat)
    requires StrictlyIncreasing(s)
    requires i < j < |s|
    ensures s[i] < s[j]
    decreases j - i
  {
    if i + 1 < j {
      IncreasingPairwise(s, i + 1, j);
    }
  }

  /** The chosen palette positions are distinct and in palette order, so no colour is used
      twice and every pair of chosen colours keeps the palette's dark-to-light order. */
  lemma {:induction false} ChosenColorsOrdered(n: int, i: nat, j: nat)
    requires i < j < |GetColorPal(n)|
    ensures ColorIndices(n)[i] < ColorIndices(n)[j]
    ensures Lighter(GetColorPal(n)[i], GetColorPal(n)[j])
    ensures GetColorPal(n)[i] != GetColorPal(n)[j]
  {
    IncreasingPairwise(ColorIndices(n), i, j);
    PaletteIsGradient();
  }

  /** The table selects exactly the palette positions it lists: `GetColorPal(n)[i]` is the
      palette entry at `ColorIndices(n)[i]`, and for every count the selection has as many
      colours as the table has positions. */
  lemma ColorsFollowIndices(n: int)
    ensures |GetColorPal(n)| == |ColorIndices(n)|
    ensures forall i :: 0 <= i < |ColorIndices(n)| ==> GetColorPal(n)[i] == Colorpal[ColorIndices(n)[i]]
  {
  }
}
