/**
 * Sliders (FOptionMenuSliderBase with its two concrete kinds): Left and Right move the
 * value by one step and clamp it to [mMin, mMax]. Values are reals; the engine's
 * doubles and the float the value is stored as are not modelled.
 */
module Slider {
  import opened MenuKeys
  import opened CVars

  /** The engine's clamp (templates.h): at or below lo gives lo, otherwise at or above hi gives hi, otherwise the value itself. */
  function Clamp(v: real, lo: real, hi: real): (r: real)
    ensures lo <= hi ==> lo <= r <= hi
    ensures lo <= v <= hi ==> r == v
    ensures v <= lo ==> r == lo
    ensures lo < v && hi <= v ==> r == hi
  {
    if v <= lo then lo else if hi <= v then hi else v
  }

  /** Clamping twice is clamping once. */
  lemma ClampIdempotent(v: real, lo: real, hi: real)
    requires lo <= hi
    ensures Clamp(Clamp(v, lo, hi), lo, hi) == Clamp(v, lo, hi)
  {
  }

  /** Clamping keeps the order of values. */
  lemma ClampMonotonic(v: real, w: real, lo: real, hi: real)
    requires v <= w && lo <= hi
    ensures Clamp(v, lo, hi) <= Clamp(w, lo, hi)
  {
  }

  /** From a value inside the range, a non-negative step down never raises it and a step up never lowers it. */
  lemma StepsMoveTheRightWay(v: real, step: real, lo: real, hi: real)
    requires step >= 0.0 && lo <= v <= hi
    ensures Clamp(v - step, lo, hi) <= v <= Clamp(v + step, lo, hi)
  {
  }

  /** Where a slider keeps its value: a CVar (FOptionMenuSliderCVar, possibly NULL) or a float variable (FOptionMenuSliderVar). */
  datatype SliderSource = FromCVar(cvar: CVar?) | FromVar(pval: FloatVar)

  class SliderItem {
    const min: real
    const max: real
    const step: real
    const source: SliderSource

    /** The objects that hold the slider's value. */
    ghost function Footprint(): set<object>
    {
      match source
      case FromCVar(c) => if c != null then {c} else {}
      case FromVar(p) => {p}
    }

    /** A slider on a missing CVar reads 0 and ignores writes. */
    predicate Writable()
    {
      !(source.FromCVar? && source.cvar == null)
    }

    constructor (min: real, max: real, step: real, source: SliderSource)
      ensures this.min == min && this.max == max && this.step == step && this.source == source
    {
      this.min := min;
      this.max := max;
      this.step := step;
      this.source := source;
    }

    /** The current value: the CVar's float representation, the variable, or 0 without a CVar. */
    function GetValue(): (r: real)
      reads Footprint()
      ensures source.FromCVar? && source.cvar != null ==> r == source.cvar.rep.number
      ensures source.FromVar? ==> r == source.pval.value
      ensures !Writable() ==> r == 0.0
    {
      match source
      case FromCVar(c) => if c != null then c.rep.number else 0.0
      case FromVar(p) => p.value
    }

    /**
     * Writes the value. The CVar's text is a separate field in this model (its
     * conversion from the float value is not modelled), and the write leaves it as it was.
     */
    method SetValue(v: real)
      modifies Footprint()
      ensures Writable() ==> GetValue() == v
      ensures source.FromCVar? && source.cvar != null ==> source.cvar.rep.text == old(source.cvar.rep.text)
    {
      match source
      case FromCVar(c) =>
        if c != null {
          c.rep := c.rep.(number := v);
        }
      case FromVar(p) =>
        p.value := v;
    }

    /**
     * Left and Right set the value to the clamped value one step below or above; other
     * keys go to the base item, whose answer is baseHandled, and change nothing.
     */
    method MenuEvent(key: MenuKey, baseHandled: bool) returns (handled: bool)
      modifies Footprint()
      ensures handled == if key.Left? || key.Right? then true else baseHandled
      ensures key.Left? && Writable() ==> GetValue() == Clamp(old(GetValue()) - step, min, max)
      ensures key.Right? && Writable() ==> GetValue() == Clamp(old(GetValue()) + step, min, max)
      ensures key.Left? || key.Right? ==> (min <= max && Writable() ==> min <= GetValue() <= max)
      ensures !(key.Left? || key.Right?) || !Writable() ==> GetValue() == old(GetValue())
      ensures source.FromCVar? && source.cvar != null ==> source.cvar.rep.text == old(source.cvar.rep.text)
    {
      var value := GetValue();
      if key == Left {
        value := value - step;
      } else if key == Right {
        value := value + step;
      } else {
        return baseHandled;
      }
      SetValue(Clamp(value, min, max));
      return true;
    }
  }
}
