/**
 * The release-year range filter: two sliders and two text inputs that
 * report a `(min, max)` range to the page, clamped to the catalog's year
 * bounds and to each other.
 */
module ReleaseYearFilter {
  import opened Wrappers
  import opened JsNumbers

  /** The component's props: the catalog's year bounds, the current selection (each bound may be null) and whether the filter is on. */
  datatype YearFilterProps = YearFilterProps(
    minYear: int,
    maxYear: int,
    selectedMin: Option<int>,
    selectedMax: Option<int>,
    isActive: bool)

  /** One call of `onRangeChange(min, max)`. */
  datatype YearRange = YearRange(min: int, max: int)

  /** The lower end shown: the selected minimum, or the catalog's smallest year when none is selected. */
  function CurrentMin(props: YearFilterProps): (r: int)
    ensures props.selectedMin.None? ==> r == props.minYear
    ensures props.selectedMin.Some? ==> r == props.selectedMin.value
  {
    props.selectedMin.GetOr(props.minYear)
  }

  /** The upper end shown: the selected maximum, or the catalog's largest year when none is selected. */
  function CurrentMax(props: YearFilterProps): (r: int)
    ensures props.selectedMax.None? ==> r == props.maxYear
    ensures props.selectedMax.Some? ==> r == props.selectedMax.value
  {
    props.selectedMax.GetOr(props.maxYear)
  }

  function Min(a: int, b: int): int {
    if a <= b then a else b
  }

  function Max(a: int, b: int): int {
    if a >= b then a else b
  }

  /**
   * The minimum slider moved to `value`: the new minimum is `value`, but
   * never above the current maximum, which is kept.
   */
  function MinSliderChange(props: YearFilterProps, value: int): (r: YearRange)
    ensures r.max == CurrentMax(props) && r.min <= r.max
    ensures r.min <= value && (value <= r.max ==> r.min == value)
    ensures CurrentMax(props) < value ==> r.min == CurrentMax(props)
  {
    YearRange(Min(value, CurrentMax(props)), CurrentMax(props))
  }

  /**
   * The maximum slider moved to `value`: the new maximum is `value`, but
   * never below the current minimum, which is kept.
   */
  function MaxSliderChange(props: YearFilterProps, value: int): (r: YearRange)
    ensures r.min == CurrentMin(props) && r.min <= r.max
    ensures value <= r.max && (r.min <= value ==> r.max == value)
    ensures value < CurrentMin(props) ==> r.max == CurrentMin(props)
  {
    YearRange(CurrentMin(props), Max(value, CurrentMin(props)))
  }

  /**
   * A typed minimum, clamped: at least the catalog's smallest year, and
   * at most the current maximum unless that is below the smallest year.
   * A value outside the window saturates at the nearer end; an empty
   * window gives the smallest year.
   */
  function ClampMinInput(props: YearFilterProps, value: int): (r: int)
    ensures props.minYear <= r
    ensures props.minYear <= CurrentMax(props) ==> r <= CurrentMax(props)
    ensures props.minYear <= value <= CurrentMax(props) ==> r == value
    ensures value < props.minYear || CurrentMax(props) < props.minYear ==> r == props.minYear
    ensures props.minYear <= CurrentMax(props) < value ==> r == CurrentMax(props)
  {
    Max(props.minYear, Min(value, CurrentMax(props)))
  }

  /**
   * A typed maximum, clamped: at most the catalog's largest year, and at
   * least the current minimum unless that is above the largest year.
   * A value outside the window saturates at the nearer end; an empty
   * window gives the largest year.
   */
  function ClampMaxInput(props: YearFilterProps, value: int): (r: int)
    ensures r <= props.maxYear
    ensures CurrentMin(props) <= props.maxYear ==> CurrentMin(props) <= r
    ensures CurrentMin(props) <= value <= props.maxYear ==> r == value
    ensures props.maxYear < value || props.maxYear < CurrentMin(props) ==> r == props.maxYear
    ensures value < CurrentMin(props) <= props.maxYear ==> r == CurrentMin(props)
  {
    Min(props.maxYear, Max(value, CurrentMin(props)))
  }

  /** The "activate" button: an inactive filter is switched on with the full range; an active one emits nothing. */
  function ActivateFilter(props: YearFilterProps): (r: Option<YearRange>)
    ensures !props.isActive ==> r == Some(YearRange(props.minYear, props.maxYear))
    ensures props.isActive ==> r.None?
  {
    if props.isActive then None else Some(YearRange(props.minYear, props.maxYear))
  }

  /** The two text inputs' local state. */
  class YearInputs {
    var minInput: string
    var maxInput: string

    /** Both inputs start from the shown range, written in decimal. */
    constructor (props: YearFilterProps)
      ensures minInput == IntToString(CurrentMin(props)) && maxInput == IntToString(CurrentMax(props))
      ensures ParseInt(minInput) == Some(CurrentMin(props)) && ParseInt(maxInput) == Some(CurrentMax(props))
    {
      minInput := IntToString(CurrentMin(props));
      maxInput := IntToString(CurrentMax(props));
      ParseIntToString(CurrentMin(props));
      ParseIntToString(CurrentMax(props));
    }

    /** The effect run when the props change: both inputs are rewritten from the shown range. */
    method Sync(props: YearFilterProps)
      modifies this
      ensures minInput == IntToString(CurrentMin(props)) && maxInput == IntToString(CurrentMax(props))
    {
      minInput := IntToString(CurrentMin(props));
      maxInput := IntToString(CurrentMax(props));
    }

    /** Typing in the minimum input stores the text as it is. */
    method SetMinInput(text: string)
      modifies this`minInput
      ensures minInput == text && maxInput == old(maxInput)
    {
      minInput := text;
    }

    /** Typing in the maximum input stores the text as it is. */
    method SetMaxInput(text: string)
      modifies this`maxInput
      ensures maxInput == text && minInput == old(minInput)
    {
      maxInput := text;
    }

    /**
     * Leaving the minimum input: text that does not parse is replaced by
     * the shown minimum and nothing is emitted; otherwise the parsed value
     * is clamped, written back, and emitted with the shown maximum. The
     * text left in the input then parses to the emitted minimum.
     */
    method MinInputBlur(props: YearFilterProps) returns (emitted: Option<YearRange>)
      modifies this`minInput
      ensures maxInput == old(maxInput)
      ensures ParseInt(old(minInput)).None? ==> emitted.None? && minInput == IntToString(CurrentMin(props))
      ensures ParseInt(old(minInput)).Some? ==>
                && emitted == Some(YearRange(ClampMinInput(props, ParseInt(old(minInput)).value), CurrentMax(props)))
                && minInput == IntToString(emitted.value.min)
      ensures emitted.Some? ==> ParseInt(minInput) == Some(emitted.value.min)
    {
      var value := ParseInt(minInput);
      if value.None? {
        minInput := IntToString(CurrentMin(props));
        return None;
      }
      var clamped := ClampMinInput(props, value.value);
      minInput := IntToString(clamped);
      ParseIntToString(clamped);
      emitted := Some(YearRange(clamped, CurrentMax(props)));
    }

    /**
     * Leaving the maximum input: text that does not parse is replaced by
     * the shown maximum and nothing is emitted; otherwise the parsed value
     * is clamped, written back, and emitted with the shown minimum. The
     * text left in the input then parses to the emitted maximum.
     */
    method MaxInputBlur(props: YearFilterProps) returns (emitted: Option<YearRange>)
      modifies this`maxInput
      ensures minInput == old(minInput)
      ensures ParseInt(old(maxInput)).None? ==> emitted.None? && maxInput == IntToString(CurrentMax(props))
      ensures ParseInt(old(maxInput)).Some? ==>
                && emitted == Some(YearRange(CurrentMin(props), ClampMaxInput(props, ParseInt(old(maxInput)).value)))
                && maxInput == IntToString(emitted.value.max)
      ensures emitted.Some? ==> ParseInt(maxInput) == Some(emitted.value.max)
    {
      var value := ParseInt(maxInput);
      if value.None? {
        maxInput := IntToString(CurrentMax(props));
        return None;
      }
      var clamped := ClampMaxInput(props, value.value);
      maxInput := IntToString(clamped);
      ParseIntToString(clamped);
      emitted := Some(YearRange(CurrentMin(props), clamped));
    }
  }
}
