/**
  The capacity gauge's keyboard control: arrow keys step the value, Home and
  End jump to the ends, the result is kept within 0..100, and the arrows
  swap direction for the right-to-left language.
 */
module GaugeButton {
  import opened Wrappers

  datatype Language = En | Ar

  /** The keys the gauge handles; every other key is `Other`. */
  datatype GaugeKey = ArrowLeft | ArrowRight | Home | End | Other(name: string)

  const DefaultStep: int := 5

  /** `Math.max(0, Math.min(100, x))`. */
  function Clamp(x: int): (r: int)
    ensures 0 <= r <= 100
    ensures 0 <= x <= 100 ==> r == x
    ensures x < 0 ==> r == 0
    ensures x > 100 ==> r == 100
  {
    if x < 0 then 0 else if x > 100 then 100 else x
  }

  /** The value a key moves the gauge to, or `None` for a key the gauge ignores. */
  function KeyTarget(value: int, key: GaugeKey, language: Language, step: int): Option<int> {
    match key
    case ArrowLeft => Some(Clamp(if language == Ar then value + step else value - step))
    case ArrowRight => Some(Clamp(if language == Ar then value - step else value + step))
    case Home => Some(0)
    case End => Some(100)
    case Other(_) => None
  }

  /** The key that moves the other way under the other reading direction. */
  function Mirror(key: GaugeKey): GaugeKey {
    match key
    case ArrowLeft => ArrowRight
    case ArrowRight => ArrowLeft
    case _ => key
  }

  /**
    Every handled key lands within 0..100; Home and End land on the ends;
    only the four keys are handled.
   */
  lemma KeyTargetBounds(value: int, key: GaugeKey, language: Language, step: int)
    ensures KeyTarget(value, key, language, step).Some? <==> !key.Other?
    ensures KeyTarget(value, key, language, step).Some? ==> 0 <= KeyTarget(value, key, language, step).value <= 100
    ensures key == Home ==> KeyTarget(value, key, language, step) == Some(0)
    ensures key == End ==> KeyTarget(value, key, language, step) == Some(100)
  {
  }

  /** Under the right-to-left language each arrow does what the other arrow does left to right. */
  lemma ArabicMirrorsArrows(value: int, key: GaugeKey, step: int)
    ensures KeyTarget(value, key, Ar, step) == KeyTarget(value, Mirror(key), En, step)
  {
  }

  /**
    Left to right, the right arrow adds one step and the left arrow takes it
    away again, as long as the step stays within the range.
   */
  lemma ArrowsUndoEachOther(value: int, step: int, language: Language)
    requires 0 <= value && value + step <= 100 && step >= 0
    ensures var forward := if language == En then ArrowRight else ArrowLeft;
      var back := Mirror(forward);
      KeyTarget(value, forward, language, step) == Some(value + step)
      && KeyTarget(value + step, back, language, step) == Some(value)
  {
  }

  /** The gauge's own copy of the value, which follows the value it is given. */
  class Gauge {
    var localValue: int
    const language: Language
    const step: int

    /** `step` defaults to 5 when not given. */
    constructor(value: int, language: Language, step: Option<int>)
      ensures localValue == value && this.language == language
      ensures this.step == if step.Some? then step.value else DefaultStep
    {
      localValue := value;
      this.language := language;
      this.step := if step.Some? then step.value else DefaultStep;
    }

    /** The effect that re-copies the value whenever it changes. */
    method SyncValue(value: int)
      modifies this
      ensures localValue == value
    {
      localValue := value;
    }

    /**
      `handleKeyDown`: returns the value reported to `onChange`, which is also
      the new local value, or `None` (and no change) for an ignored key.
     */
    method HandleKeyDown(key: GaugeKey) returns (reported: Option<int>)
      modifies this
      ensures reported == KeyTarget(old(localValue), key, language, step)
      ensures localValue == if reported.Some? then reported.value else old(localValue)
    {
      var newValue := localValue;
      match key {
        case ArrowLeft =>
          newValue := if language == Ar then localValue + step else localValue - step;
        case ArrowRight =>
          newValue := if language == Ar then localValue - step else localValue + step;
        case Home =>
          newValue := 0;
        case End =>
          newValue := 100;
        case Other(_) =>
          return None;
      }
      newValue := if newValue < 0 then 0 else if newValue > 100 then 100 else newValue;
      localValue := newValue;
      reported := Some(newValue);
    }
  }
}
