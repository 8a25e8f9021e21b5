/**
 * The number entities (number.py): laser power and the four picture controls.
 * Setting one checks the value against the entity's bounds, calls the one
 * device setter for that entity and asks for a throttled refresh; the whole
 * command runs inside handle_api_errors.
 */
module Number {
  import opened Wrappers
  import opened Json
  import opened Exceptions
  import opened Helpers
  import Coordinator

  datatype Kind = LaserPower | Brightness | Contrast | Saturation | Hue

  /** The device method each entity calls, by name. */
  function SetterName(kind: Kind): string {
    match kind
    case LaserPower => "set_laser_power"
    case Brightness => "set_brightness"
    case Contrast => "set_contrast"
    case Saturation => "set_saturation"
    case Hue => "set_hue"
  }

  /** Each entity has its own setter. */
  lemma SettersDistinct(a: Kind, b: Kind)
    requires a != b
    ensures SetterName(a) != SetterName(b)
  {
    var x, y := SetterName(a), SetterName(b);
    if |x| == |y| {
      // the names of equal length differ in their fifth character
      assert x[4] != y[4];
    }
  }

  /** What setting a value does outside the entity: the setter call, then safe_refresh named after the setter. */
  datatype NumberCall = Setter(kind: Kind, value: real) | SafeRefresh(operation: string)

  /** The function handle_api_errors wraps, whose name heads the catch-all message. */
  const ValidatorName := "_set_value_with_validation"

  const PictureMin := -1.0
  const PictureMax := 1.0
  const LaserDefaultMin := 0.0
  const LaserDefaultMax := 100.0

  /** A stored value as Python compares it with a float; anything else makes `<` raise TypeError. */
  function Comparable(v: Coordinator.Value): (r: Result<real, Exc>)
    ensures r.Err? <==> !(v.Val? && (v.j.JInt? || v.j.JFloat? || v.j.JBool?))
    ensures r.Err? ==> r.error == TypeError
  {
    match v
    case Val(JInt(i)) => Ok(i as real)
    case Val(JFloat(r)) => Ok(r)
    case Val(JBool(b)) => Ok(if b then 1.0 else 0.0)
    case _ => Err(TypeError)
  }

  /** `coordinator.data.get(key, default)`, as compared. */
  function Stored(data: Coordinator.Data, key: Coordinator.Key, default: real): (r: Result<real, Exc>)
    ensures key !in data ==> r == Ok(default)
    ensures r.Err? ==> key in data && r.error == TypeError
  {
    if key in data then Comparable(data[key]) else Ok(default)
  }

  /** native_min_value: the laser's from the data with default 0.0; the picture controls' fixed at -1.0. */
  function MinValue(kind: Kind, data: Coordinator.Data): Result<real, Exc> {
    if kind == LaserPower then Stored(data, Coordinator.LaserMin, LaserDefaultMin) else Ok(PictureMin)
  }

  /** native_max_value: the laser's from the data with default 100.0; the picture controls' fixed at 1.0. */
  function MaxValue(kind: Kind, data: Coordinator.Data): Result<real, Exc> {
    if kind == LaserPower then Stored(data, Coordinator.LaserMax, LaserDefaultMax) else Ok(PictureMax)
  }

  /**
   * The range gate `value < min or value > max`: ValueError when it holds.
   * The maximum is only read when the value is not below the minimum, so an
   * incomparable maximum raises TypeError only then.
   */
  function Validate(kind: Kind, data: Coordinator.Data, value: real): Option<Exc> {
    match MinValue(kind, data)
    case Err(e) => Some(e)
    case Ok(lo) =>
      if value < lo then Some(ValueError)
      else
        match MaxValue(kind, data)
        case Err(e) => Some(e)
        case Ok(hi) => if value > hi then Some(ValueError) else None
  }

  /** When both bounds are numbers, a value passes exactly when it lies in the closed interval. */
  lemma {:induction false} ValidateIsClosedInterval(kind: Kind, data: Coordinator.Data, value: real)
    requires MinValue(kind, data).Ok? && MaxValue(kind, data).Ok?
    ensures Validate(kind, data, value).None? <==>
      MinValue(kind, data).value <= value <= MaxValue(kind, data).value
    ensures Validate(kind, data, value).Some? ==> Validate(kind, data, value) == Some(ValueError)
  {
  }

  /** The picture controls accept exactly [-1.0, 1.0], whatever the data holds. */
  lemma PictureBounds(kind: Kind, data: Coordinator.Data, value: real)
    requires kind != LaserPower
    ensures Validate(kind, data, value).None? <==> -1.0 <= value <= 1.0
    ensures Validate(kind, data, value).Some? ==> Validate(kind, data, value) == Some(ValueError)
  {
  }

  /** Without reported bounds the laser accepts exactly [0.0, 100.0]. */
  lemma LaserDefaults(data: Coordinator.Data, value: real)
    requires Coordinator.LaserMin !in data && Coordinator.LaserMax !in data
    ensures Validate(LaserPower, data, value).None? <==> 0.0 <= value <= 100.0
  {
  }

  /** The bounds the coordinator stores are the bounds the laser entity enforces. */
  lemma LaserBoundsFromCoordinator(data: Coordinator.Data, lo: real, hi: real, value: real)
    ensures Validate(LaserPower, Coordinator.WithBounds(data, lo, hi), value).None? <==> lo <= value <= hi
  {
    var d := Coordinator.WithBounds(data, lo, hi);
    assert d[Coordinator.LaserMin] == Coordinator.Val(JFloat(lo));
    assert d[Coordinator.LaserMax] == Coordinator.Val(JFloat(hi));
  }

  /**
   * async_set_native_value, as wrapped by handle_api_errors: a rejected value
   * makes no call and raises HomeAssistantError from the ValueError (or the
   * TypeError of an incomparable bound); an accepted one makes exactly one setter
   * call with that same value, then the refresh when the setter returned.
   * `setter` is the exception the setter raises, or None.
   */
  function SetValue(kind: Kind, data: Coordinator.Data, value: real, setter: Option<Exc>): (r: (seq<NumberCall>, Handled<()>))
    ensures Validate(kind, data, value).Some? ==>
      r == ([], HomeAssistantError(FailedPrefix(ValidatorName), Validate(kind, data, value).value))
    ensures Validate(kind, data, value).None? ==>
      && |r.0| >= 1 && r.0[0] == Setter(kind, value)
      && (r.1.Returned? <==> setter.None?)
      && r.0[1..] == (if setter.None? then [SafeRefresh(SetterName(kind))] else [])
      && (setter.Some? ==> r.1 == HandleApiErrors(ValidatorName, Err(setter.value)))
  {
    var checked := Validate(kind, data, value);
    if checked.Some? then ([], HandleApiErrors(ValidatorName, Err(checked.value)))
    else if setter.Some? then ([Setter(kind, value)], HandleApiErrors(ValidatorName, Err(setter.value)))
    else ([Setter(kind, value), SafeRefresh(SetterName(kind))], HandleApiErrors(ValidatorName, Ok(())))
  }

  /** Exactly one setter call is made, always the entity's own, at most once per command. */
  lemma SetValueCallsOwnSetter(kind: Kind, data: Coordinator.Data, value: real, setter: Option<Exc>)
    ensures var calls := SetValue(kind, data, value, setter).0;
      forall i :: 0 <= i < |calls| && calls[i].Setter? ==> i == 0 && calls[i] == Setter(kind, value)
  {
  }

  /** Both endpoints of the laser's range are accepted, and just outside them is not. */
  lemma LaserEndpoints(data: Coordinator.Data, lo: real, hi: real, setter: Option<Exc>)
    requires lo <= hi
    ensures SetValue(LaserPower, Coordinator.WithBounds(data, lo, hi), lo, setter).0[0] == Setter(LaserPower, lo)
    ensures SetValue(LaserPower, Coordinator.WithBounds(data, lo, hi), hi, setter).0[0] == Setter(LaserPower, hi)
    ensures SetValue(LaserPower, Coordinator.WithBounds(data, lo, hi), hi + 1.0, setter).0 == []
  {
    LaserBoundsFromCoordinator(data, lo, hi, lo);
    LaserBoundsFromCoordinator(data, lo, hi, hi);
    LaserBoundsFromCoordinator(data, lo, hi, hi + 1.0);
  }
}
