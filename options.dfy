/** Colours, treated as opaque values: only their identity matters here. */
module Colors {
  /** The named colours the option defaults use, and any other colour by its
      components. A SwiftUI `Color` and the `UIColor` made from it are the same value. */
  datatype Color = Black | White | Orange | Rgba(red: real, green: real, blue: real, alpha: real)
}

/** The value domain of a numeric option edited with a slider. */
module Sliders {

  /** A closed range `lower...upper` walked in steps of `step`. */
  datatype Slider = Slider(lower: real, upper: real, step: real)

  /** The k-th point of the slider's grid. */
  function GridPoint(s: Slider, k: nat): real {
    s.lower + k as real * s.step
  }

  /** A usable slider: a non-empty range, a positive step, and a top end the steps reach. */
  ghost predicate WellFormed(s: Slider) {
    s.lower < s.upper && 0.0 < s.step && OnGrid(s, s.upper)
  }

  /** `v` is a whole number of steps above the bottom of the range. */
  ghost predicate OnGrid(s: Slider, v: real) {
    exists k: nat :: v == GridPoint(s, k)
  }

  /** `v` is a value the slider can show: inside the range and on the grid. */
  ghost predicate Admits(s: Slider, v: real) {
    s.lower <= v <= s.upper && OnGrid(s, v)
  }
}

/**
 * The generic artwork settings the favourites style falls back on, declared
 * in the generic artwork options (`Settings.libraryFeatures.artwork`).
 */
module ArtworkOptions {
  import opened Wrappers
  import opened Colors

  /** Which colour a custom-style colour option uses. The favourites style reads
      only `.custom` and `.theme`; a case outside these two behaves like `.theme`
      wherever the favourites style compares a mode with `.custom`. */
  datatype ArtworkCustomColor = Theme | Custom

  /** `ArtworkCustomColor.allCases`. */
  const AllColorModes: seq<ArtworkCustomColor> := [Theme, Custom]

  /** `allCases` lists every colour mode. */
  lemma EveryColorModeIsListed()
    ensures forall m: ArtworkCustomColor :: m in AllColorModes
  {
    forall m: ArtworkCustomColor ensures m in AllColorModes {
      match m
      case Theme => assert AllColorModes[0] == m;
      case Custom => assert AllColorModes[1] == m;
    }
  }

  /** The look of a game's artwork: what the artwork style setting yields and
      what a favourite-artwork style resolves to. */
  datatype Appearance = Appearance(
    backgroundColor: Option<Color>,
    borderColor: Option<Color>,
    textColor: Color,
    shadowColor: Option<Color>,
    cornerRadius: real,
    borderWidth: real,
    shadowOpacity: real,
    shadowRadius: real)
}
