/** The two change handlers of src/components/filters/PriceRangeSlider.tsx,
    which keep the minimum strictly below the maximum. */
module PriceRangeSlider {
  import opened Types
  import opened Numbers

  /** `handleMinChange`: the new minimum, pulled down to `max - 1` if it
      would reach the maximum; the maximum is kept. */
  function HandleMinChange(value: PriceRange, newMin: int): (r: PriceRange)
    ensures r.max == value.max
    ensures r.min < r.max
    ensures newMin < value.max ==> r.min == newMin
    ensures newMin >= value.max ==> r.min == value.max - 1
  {
    PriceRange(Min(newMin, value.max - 1), value.max)
  }

  /** `handleMaxChange`: the new maximum, pushed up to `min + 1` if it would
      reach the minimum; the minimum is kept. */
  function HandleMaxChange(value: PriceRange, newMax: int): (r: PriceRange)
    ensures r.min == value.min
    ensures r.min < r.max
    ensures newMax > value.min ==> r.max == newMax
    ensures newMax <= value.min ==> r.max == value.min + 1
  {
    PriceRange(value.min, Max(newMax, value.min + 1))
  }

  /** The new minimum is the largest value that is at most the requested one
      and strictly below the maximum. */
  lemma MinChangeIsGreatestAllowed(value: PriceRange, newMin: int, x: int)
    requires x <= newMin && x < value.max
    ensures x <= HandleMinChange(value, newMin).min
    ensures HandleMinChange(value, newMin).min <= newMin
  {
  }

  /** The new maximum is the least value that is at least the requested one
      and strictly above the minimum. */
  lemma MaxChangeIsLeastAllowed(value: PriceRange, newMax: int, x: int)
    requires x >= newMax && x > value.min
    ensures HandleMaxChange(value, newMax).max <= x
    ensures HandleMaxChange(value, newMax).max >= newMax
  {
  }

  /** Repeating a change with the same slider value changes nothing more. */
  lemma HandlersIdempotent(value: PriceRange, newMin: int, newMax: int)
    ensures HandleMinChange(HandleMinChange(value, newMin), newMin) == HandleMinChange(value, newMin)
    ensures HandleMaxChange(HandleMaxChange(value, newMax), newMax) == HandleMaxChange(value, newMax)
  {
  }

  /** A change that already respects the ordering is passed through untouched. */
  lemma ValidRangeUnchanged(value: PriceRange)
    requires value.min < value.max
    ensures HandleMinChange(value, value.min) == value
    ensures HandleMaxChange(value, value.max) == value
  {
  }
}
