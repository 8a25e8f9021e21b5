/**
 * The poll cycle of BarcoDataUpdateCoordinator (coordinator.py): one update asks the
 * device for its power state and identity, and, while the projector is on or ready,
 * for a batch of picture and laser properties, which are parsed into the data dict
 * the entities read. The device is an oracle: `dev(k, c)` is what the k-th device
 * call of the cycle, `c`, returns or raises.
 */
module Coordinator {
  import opened Wrappers
  import opened Json
  import opened Exceptions
  import opened Py

  /** A value stored in the coordinator's data dict. */
  datatype Value =
    | Val(j: Json)                          // a value taken from the device, or None / a float
    | Presets(assignments: map<int, Json>)  // preset number -> profile name
    | Ints(xs: seq<int>)                    // a list of preset numbers

  /** The keys of the data dict; `Name` gives the string each is stored under. */
  datatype Key =
    | State | SerialNumber | Model | FirmwareVersion
    | LaserPower | Brightness | Contrast | Saturation | Source | LaserMin | LaserMax
    | PresetAssignments | AvailablePresets | Profiles | AvailableSources

  function Name(k: Key): string {
    match k
    case State => "state"
    case SerialNumber => "serial_number"
    case Model => "model"
    case FirmwareVersion => "firmware_version"
    case LaserPower => "laser_power"
    case Brightness => "brightness"
    case Contrast => "contrast"
    case Saturation => "saturation"
    case Source => "source"
    case LaserMin => "laser_min"
    case LaserMax => "laser_max"
    case PresetAssignments => "preset_assignments"
    case AvailablePresets => "available_presets"
    case Profiles => "profiles"
    case AvailableSources => "available_sources"
  }

  type Data = map<Key, Value>

  /** The device calls the coordinator makes. */
  datatype Call = GetState | GetProperties(names: seq<string>) | GetAvailableSources | Disconnect

  /** `dev(k, c)`: the outcome of the k-th call of one update cycle. */
  type Device = (nat, Call) -> Result<Json, Exc>

  /** `bool(v)` for a stored value. */
  predicate ValueTruthy(v: Value) {
    match v
    case Val(j) => Truthy(j)
    case Presets(m) => |m| > 0
    case Ints(xs) => |xs| > 0
  }

  // Float properties --------------------------------------------------------------

  const FloatMappings: seq<(Key, string)> := [
    (LaserPower, "illumination.sources.laser.power"),
    (Brightness, "image.brightness"),
    (Contrast, "image.contrast"),
    (Saturation, "image.saturation")]

  const FloatKeys: set<Key> := {LaserPower, Brightness, Contrast, Saturation}

  /**
   * What `float(value) if value is not None else None` stores: None for None, the
   * float, or None when float() raises ValueError or TypeError. The OverflowError
   * of an int beyond the double range is not caught and propagates.
   */
  function FloatOrNone(h: Host, v: Json): (r: Result<Json, Exc>)
    ensures r.Err? <==> v.JInt? && !FitsDouble(v.i)
    ensures r.Err? ==> r.error == OverflowError
    ensures r.Ok? ==> r.value.JNull? || r.value.JFloat?
    ensures v.JNull? ==> r == Ok(JNull)
    ensures r.Ok? && !v.JNull? ==> (r.value.JFloat? <==> FloatOf(h, v).Ok?)
    ensures r.Ok? && r.value.JFloat? ==> FloatOf(h, v) == Ok(r.value.r)
  {
    if v.JNull? then Ok(JNull)
    else match FloatOf(h, v)
      case Ok(x) => Ok(JFloat(x))
      case Err(e) => if e == OverflowError then Err(e) else Ok(JNull)
  }

  /** `key` holds the same thing in `a` as in `b`, or is absent from both. */
  predicate Kept(a: Data, b: Data, key: Key) {
    (key in a <==> key in b) && (key in a ==> a[key] == b[key])
  }

  /** Mapping `m` raises: its property is reported with an int float() cannot take. */
  predicate Overflows(h: Host, results: Fields, m: (Key, string)) {
    Has(results, m.1) && FloatOrNone(h, Get(results, m.1).value).Err?
  }

  /**
   * Mapping `m` has been applied to `data`, giving `out`: when its property is
   * reported, the key holds the coerced value; otherwise the key is as in `data`.
   */
  predicate FloatParsed(h: Host, results: Fields, data: Data, out: Data, m: (Key, string)) {
    match Get(results, m.1)
    case Some(v) => FloatOrNone(h, v).Ok? && m.0 in out && out[m.0] == Val(FloatOrNone(h, v).value)
    case None => Kept(out, data, m.0)
  }

  /** No key is written by two mappings. */
  predicate DistinctTargets(ms: seq<(Key, string)>) {
    forall a, b :: 0 <= a < b < |ms| ==> ms[a].0 != ms[b].0
  }

  /** The keys the first `n` mappings write. */
  function Written(ms: seq<(Key, string)>, n: nat): set<Key>
    requires n <= |ms|
  {
    set j | 0 <= j < n :: ms[j].0
  }

  /**
   * The entries the mappings `ms` write, taken in order, or the OverflowError of
   * the first one that raises.
   */
  function FloatEntries(h: Host, results: Fields, ms: seq<(Key, string)>): (r: Result<Data, Exc>)
    ensures r.Err? ==> r.error == OverflowError
    ensures r.Ok? ==> forall k :: k in r.value ==> r.value[k].Val? && (r.value[k].j.JNull? || r.value[k].j.JFloat?)
  {
    if |ms| == 0 then Ok(map[])
    else
      match FloatEntries(h, results, ms[..|ms| - 1])
      case Err(e) => Err(e)
      case Ok(d) =>
        var m := ms[|ms| - 1];
        match Get(results, m.1)
        case None => Ok(d)
        case Some(value) =>
          match FloatOrNone(h, value)
          case Err(e) => Err(e)
          case Ok(x) => Ok(d[m.0 := Val(x)])
  }

  /** The entries fail exactly when some mapping overflows, and then with OverflowError. */
  lemma {:induction false} FloatEntriesFail(h: Host, results: Fields, ms: seq<(Key, string)>)
    ensures FloatEntries(h, results, ms).Err? <==> exists i :: 0 <= i < |ms| && Overflows(h, results, ms[i])
    ensures FloatEntries(h, results, ms).Err? ==> FloatEntries(h, results, ms).error == OverflowError
  {
    if |ms| > 0 {
      var init := ms[..|ms| - 1];
      FloatEntriesFail(h, results, init);
      if exists i :: 0 <= i < |init| && Overflows(h, results, init[i]) {
        var i :| 0 <= i < |init| && Overflows(h, results, init[i]);
        assert ms[i] == init[i];
      }
      if exists i :: 0 <= i < |ms| && Overflows(h, results, ms[i]) {
        var i :| 0 <= i < |ms| && Overflows(h, results, ms[i]);
        if i < |init| {
          assert init[i] == ms[i];
        }
      }
    }
  }

  /**
   * When no mapping raises, every mapping has written its coerced value, and no
   * key but the mappings' own is written.
   */
  lemma {:induction false} FloatEntriesMeaning(h: Host, results: Fields, ms: seq<(Key, string)>)
    requires DistinctTargets(ms) && FloatEntries(h, results, ms).Ok?
    ensures forall i :: 0 <= i < |ms| ==> FloatParsed(h, results, map[], FloatEntries(h, results, ms).value, ms[i])
    ensures FloatEntries(h, results, ms).value.Keys <= Written(ms, |ms|)
  {
    if |ms| > 0 {
      var init := ms[..|ms| - 1];
      var m := ms[|ms| - 1];
      assert DistinctTargets(init) by {
        forall a, b | 0 <= a < b < |init| ensures init[a].0 != init[b].0 {
          assert init[a] == ms[a] && init[b] == ms[b];
        }
      }
      var r := FloatEntries(h, results, ms).value;
      var p := FloatEntries(h, results, init).value;
      FloatEntriesMeaning(h, results, init);
      assert Written(ms, |ms|) == Written(init, |init|) + {m.0};
      forall i | 0 <= i < |init| ensures FloatParsed(h, results, map[], r, ms[i]) {
        assert init[i] == ms[i];
        assert FloatParsed(h, results, map[], p, init[i]);
        assert ms[i].0 != m.0;
        assert Kept(r, p, ms[i].0);
      }
    }
  }

  /** Once a prefix of the mappings has raised, the whole list raises the same error. */
  lemma {:induction false} FloatEntriesAfterError(h: Host, results: Fields, ms: seq<(Key, string)>, k: nat)
    requires k <= |ms| && FloatEntries(h, results, ms[..k]).Err?
    ensures FloatEntries(h, results, ms) == FloatEntries(h, results, ms[..k])
    decreases |ms| - k
  {
    if k < |ms| {
      assert ms[..k + 1][..k] == ms[..k];
      FloatEntriesAfterError(h, results, ms, k + 1);
    } else {
      assert ms[..k] == ms;
    }
  }

  /** `data` with the entries of `r` laid over it, or the error of `r`. */
  function Overlay(data: Data, r: Result<Data, Exc>): Result<Data, Exc> {
    match r
    case Ok(d) => Ok(data + d)
    case Err(e) => Err(e)
  }

  /** The four mappings write the four float keys, each once. */
  lemma FloatKeysWritten()
    ensures DistinctTargets(FloatMappings)
    ensures Written(FloatMappings, |FloatMappings|) == FloatKeys
  {
    assert FloatMappings[0].0 == LaserPower && FloatMappings[1].0 == Brightness;
    assert FloatMappings[2].0 == Contrast && FloatMappings[3].0 == Saturation;
  }

  /**
   * _parse_float_properties: each of the four keys is written only when its
   * property is in the results, and then holds the float, or None when the value is
   * None or float() rejects it with ValueError or TypeError; every other key of
   * `data` is untouched. An int beyond the double range raises OverflowError.
   */
  method ParseFloatProperties(h: Host, results: Fields, data: Data) returns (r: Result<Data, Exc>)
    ensures r == Overlay(data, FloatEntries(h, results, FloatMappings))
    ensures r.Err? <==> exists i :: 0 <= i < |FloatMappings| && Overflows(h, results, FloatMappings[i])
    ensures r.Err? ==> r.error == OverflowError
    ensures r.Ok? ==> forall i :: 0 <= i < |FloatMappings| ==> FloatParsed(h, results, data, r.value, FloatMappings[i])
    ensures r.Ok? ==> forall key :: key !in FloatKeys ==> Kept(r.value, data, key)
  {
    FloatKeysWritten();
    r := ApplyMappings(h, results, data, FloatMappings);
    FloatEntriesFail(h, results, FloatMappings);
    FloatKeysWritten();
  }

  /** The loop of _parse_float_properties over the mappings `ms`. */
  method ApplyMappings(h: Host, results: Fields, data: Data, ms: seq<(Key, string)>) returns (r: Result<Data, Exc>)
    requires DistinctTargets(ms)
    ensures r == Overlay(data, FloatEntries(h, results, ms))
    ensures r.Ok? ==> forall i :: 0 <= i < |ms| ==> FloatParsed(h, results, data, r.value, ms[i])
    ensures r.Ok? ==> forall key :: key !in Written(ms, |ms|) ==> Kept(r.value, data, key)
  {
    var out := data;
    for i := 0 to |ms|
      invariant FloatEntries(h, results, ms[..i]).Ok?
      invariant out == data + FloatEntries(h, results, ms[..i]).value
    {
      assert ms[..i + 1][..i] == ms[..i];
      var m := ms[i];
      if Has(results, m.1) {
        var value := Get(results, m.1).value;
        var coerced := FloatOrNone(h, value);
        if coerced.Err? {
          FloatEntriesAfterError(h, results, ms, i + 1);
          return Err(coerced.error);
        }
        out := out[m.0 := Val(coerced.value)];
      }
    }
    assert ms[..|ms|] == ms;
    r := Ok(out);
    var entries := FloatEntries(h, results, ms).value;
    FloatEntriesMeaning(h, results, ms);
    forall i | 0 <= i < |ms| ensures FloatParsed(h, results, data, out, ms[i]) {
      ParsedOverlay(h, results, data, entries, ms[i]);
    }
  }

  /** A mapping applied to the empty dict is applied to any dict the result is laid over. */
  lemma ParsedOverlay(h: Host, results: Fields, data: Data, entries: Data, m: (Key, string))
    requires FloatParsed(h, results, map[], entries, m)
    ensures FloatParsed(h, results, data, data + entries, m)
  {
  }

  // Laser constraints -------------------------------------------------------------

  const LaserMinKey := "illumination.sources.laser.power.min"
  const LaserMaxKey := "illumination.sources.laser.power.max"
  const DefaultLaserMin := 0.0
  const DefaultLaserMax := 100.0

  /** The bound the device reports under `key`: present, not None, and accepted by float(). */
  function DeviceBound(h: Host, results: Fields, key: string): (r: Option<real>)
    ensures r.Some? <==> Has(results, key) && !Get(results, key).value.JNull? && FloatOf(h, Get(results, key).value).Ok?
    ensures r.Some? ==> FloatOf(h, Get(results, key).value) == Ok(r.value)
  {
    var v := GetOr(results, key, JNull);
    if !v.JNull? && FloatOf(h, v).Ok? then Some(FloatOf(h, v).value) else None
  }

  /** A reported bound that float() refuses with OverflowError. */
  predicate BoundOverflows(h: Host, results: Fields, key: string) {
    Has(results, key) && FloatOf(h, Get(results, key).value) == Err(OverflowError)
  }

  /**
   * The bounds _parse_laser_constraints stores: both from the device when both are
   * reported and both convert, otherwise both defaults. With both reported, the
   * minimum is converted first, and an OverflowError from either conversion it
   * reaches escapes the except clause.
   */
  function LaserBounds(h: Host, results: Fields): (r: Result<(real, real), Exc>)
    ensures DeviceBound(h, results, LaserMinKey).Some? && DeviceBound(h, results, LaserMaxKey).Some? ==>
      r == Ok((DeviceBound(h, results, LaserMinKey).value, DeviceBound(h, results, LaserMaxKey).value))
    ensures r.Ok? && (DeviceBound(h, results, LaserMinKey).None? || DeviceBound(h, results, LaserMaxKey).None?) ==>
      r.value == (DefaultLaserMin, DefaultLaserMax)
    ensures r.Err? <==> && !GetOr(results, LaserMinKey, JNull).JNull? && !GetOr(results, LaserMaxKey, JNull).JNull?
                        && (BoundOverflows(h, results, LaserMinKey) ||
                            (DeviceBound(h, results, LaserMinKey).Some? && BoundOverflows(h, results, LaserMaxKey)))
    ensures r.Err? ==> r.error == OverflowError
  {
    var lo := GetOr(results, LaserMinKey, JNull);
    var hi := GetOr(results, LaserMaxKey, JNull);
    if lo.JNull? || hi.JNull? then Ok((DefaultLaserMin, DefaultLaserMax))
    else
      match FloatOf(h, lo)
      case Err(e) => if e == OverflowError then Err(e) else Ok((DefaultLaserMin, DefaultLaserMax))
      case Ok(a) =>
        match FloatOf(h, hi)
        case Err(e) => if e == OverflowError then Err(e) else Ok((DefaultLaserMin, DefaultLaserMax))
        case Ok(b) => Ok((a, b))
  }

  /** `data` with laser_min and laser_max set. */
  function WithBounds(data: Data, lo: real, hi: real): Data {
    data[LaserMin := Val(JFloat(lo))][LaserMax := Val(JFloat(hi))]
  }

  /**
   * _parse_laser_constraints: both bounds come from the device when both are
   * reported and both convert; otherwise both are the defaults 0.0 and 100.0, so a
   * device value is never paired with a default. Every other key is untouched.
   */
  method ParseLaserConstraints(h: Host, results: Fields, data: Data) returns (r: Result<Data, Exc>)
    ensures LaserBounds(h, results).Err? ==> r == Err(LaserBounds(h, results).error)
    ensures LaserBounds(h, results).Ok? ==>
      r == Ok(WithBounds(data, LaserBounds(h, results).value.0, LaserBounds(h, results).value.1))
    ensures r.Ok? ==> LaserMin in r.value && LaserMax in r.value
    ensures r.Ok? ==> forall key :: key != LaserMin && key != LaserMax ==> Kept(r.value, data, key)
  {
    var laserMin := GetOr(results, LaserMinKey, JNull);
    var laserMax := GetOr(results, LaserMaxKey, JNull);
    var lo, hi := DefaultLaserMin, DefaultLaserMax;
    if !laserMin.JNull? && !laserMax.JNull? {
      var deviceMin := FloatOf(h, laserMin);
      if deviceMin.Ok? {
        var deviceMax := FloatOf(h, laserMax);
        if deviceMax.Ok? {
          lo, hi := deviceMin.value, deviceMax.value;
        } else if deviceMax.error == OverflowError {
          return Err(deviceMax.error);
        }
      } else if deviceMin.error == OverflowError {
        return Err(deviceMin.error);
      }
    }
    r := Ok(WithBounds(data, lo, hi));
  }

  // Preset assignments ------------------------------------------------------------

  const PresetAssignmentTupleSize := 2

  /** An item the parser takes: a list of at least two entries whose name is truthy. */
  predicate Assigns(item: Json) {
    item.JArr? && |item.items| >= PresetAssignmentTupleSize && Truthy(item.items[1])
  }

  /**
   * The assignments the loop of _parse_preset_assignments builds from `items`, taken
   * in order; int() of a taken item's number can raise.
   */
  function Assignments(items: seq<Json>): Result<map<int, Json>, Exc> {
    if |items| == 0 then Ok(map[])
    else
      match Assignments(items[..|items| - 1])
      case Err(e) => Err(e)
      case Ok(m) =>
        var item := items[|items| - 1];
        if !Assigns(item) then Ok(m)
        else
          match IntOf(item.items[0])
          case Err(e) => Err(e)
          case Ok(n) => Ok(m[n := item.items[1]])
  }

  /** An item whose number int() rejects although its name makes the parser take it. */
  predicate BadNumber(item: Json) {
    Assigns(item) && IntOf(item.items[0]).Err?
  }

  /** The parse fails exactly when a taken item has a bad number, with ValueError or TypeError. */
  lemma {:induction false} AssignmentsFail(items: seq<Json>)
    ensures Assignments(items).Err? <==> exists i :: 0 <= i < |items| && BadNumber(items[i])
    ensures Assignments(items).Err? ==> Assignments(items).error in {ValueError, TypeError}
  {
    if |items| > 0 {
      var init := items[..|items| - 1];
      AssignmentsFail(init);
      if exists i :: 0 <= i < |init| && BadNumber(init[i]) {
        var i :| 0 <= i < |init| && BadNumber(init[i]);
        assert items[i] == init[i];
      }
      if exists i :: 0 <= i < |items| && BadNumber(items[i]) {
        var i :| 0 <= i < |items| && BadNumber(items[i]);
        if i < |init| {
          assert init[i] == items[i];
        }
      }
    }
  }

  /**
   * A number is assigned exactly when some taken item carries it, and then it is
   * assigned the name of the last such item; every assigned name is truthy.
   */
  lemma {:induction false} AssignmentsMeaning(items: seq<Json>, n: int)
    requires Assignments(items).Ok?
    ensures n in Assignments(items).value <==>
      exists i :: 0 <= i < |items| && Assigns(items[i]) && IntOf(items[i].items[0]) == Ok(n)
    ensures n in Assignments(items).value ==> Truthy(Assignments(items).value[n])
    ensures n in Assignments(items).value ==>
      exists i :: 0 <= i < |items| && Assigns(items[i]) && IntOf(items[i].items[0]) == Ok(n) &&
        Assignments(items).value[n] == items[i].items[1] &&
        forall j :: i < j < |items| && Assigns(items[j]) ==> IntOf(items[j].items[0]) != Ok(n)
  {
    if |items| > 0 {
      var init := items[..|items| - 1];
      var last := items[|items| - 1];
      assert Assignments(init).Ok?;
      AssignmentsMeaning(init, n);
      var m := Assignments(init).value;
      if Assigns(last) && IntOf(last.items[0]) == Ok(n) {
        assert Assignments(items).value[n] == last.items[1];
      } else {
        assert Assignments(items).value == m || (Assigns(last) && Assignments(items).value == m[IntOf(last.items[0]).value := last.items[1]]);
        if exists i :: 0 <= i < |items| && Assigns(items[i]) && IntOf(items[i].items[0]) == Ok(n) {
          var i :| 0 <= i < |items| && Assigns(items[i]) && IntOf(items[i].items[0]) == Ok(n);
          assert i < |init| && init[i] == items[i];
        }
        if n in m {
          var i :| 0 <= i < |init| && Assigns(init[i]) && IntOf(init[i].items[0]) == Ok(n) &&
            m[n] == init[i].items[1] &&
            forall j :: i < j < |init| && Assigns(init[j]) ==> IntOf(init[j].items[0]) != Ok(n);
          assert items[i] == init[i];
          forall j | i < j < |items| && Assigns(items[j]) ensures IntOf(items[j].items[0]) != Ok(n) {
            if j < |init| {
              assert items[j] == init[j];
            }
          }
        }
      }
    }
  }

  /** Once a prefix of the items fails, the whole list fails with the same error. */
  lemma {:induction false} AssignmentsAfterError(items: seq<Json>, k: nat)
    requires k <= |items| && Assignments(items[..k]).Err?
    ensures Assignments(items) == Assignments(items[..k])
    decreases |items| - k
  {
    if k < |items| {
      assert items[..k + 1][..k] == items[..k];
      AssignmentsAfterError(items, k + 1);
    } else {
      assert items[..k] == items;
    }
  }

  predicate Increasing(xs: seq<int>) {
    forall i, j :: 0 <= i < j < |xs| ==> xs[i] < xs[j]
  }

  /** In an increasing list the head is below everything after it. */
  lemma HeadIsLeast(xs: seq<int>)
    requires Increasing(xs) && |xs| > 0
    ensures forall x :: x in xs[1..] ==> xs[0] < x
  {
    forall x | x in xs[1..] ensures xs[0] < x {
      var k :| 0 <= k < |xs[1..]| && xs[1..][k] == x;
      assert xs[k + 1] == x;
    }
  }

  lemma ConsIncreasing(h: int, t: seq<int>)
    requires Increasing(t) && forall x :: x in t ==> h < x
    ensures Increasing([h] + t)
  {
    var r := [h] + t;
    forall i, j | 0 <= i < j < |r| ensures r[i] < r[j] {
      assert r[j] == t[j - 1] && t[j - 1] in t;
      if i > 0 {
        assert r[i] == t[i - 1];
      } else {
        assert r[i] == h;
      }
    }
  }

  /** `xs` with `n` added at its place, unless already there. */
  function InsertSorted(xs: seq<int>, n: int): (r: seq<int>)
    requires Increasing(xs)
    ensures Increasing(r)
    ensures forall x :: x in r <==> x in xs || x == n
  {
    if |xs| == 0 then [n]
    else if n < xs[0] then
      HeadIsLeast(xs);
      assert xs == [xs[0]] + xs[1..];
      ConsIncreasing(n, xs);
      [n] + xs
    else if n == xs[0] then xs
    else
      var tail := xs[1..];
      assert Increasing(tail) by {
        forall i, j | 0 <= i < j < |tail| ensures tail[i] < tail[j] {
          assert tail[i] == xs[i + 1] && tail[j] == xs[j + 1];
        }
      }
      var rest := InsertSorted(tail, n);
      HeadIsLeast(xs);
      assert xs == [xs[0]] + tail;
      ConsIncreasing(xs[0], rest);
      [xs[0]] + rest
  }

  /** `sorted(assignments.keys())` for the assignments of `items`, built as the loop adds them. */
  function Numbers(items: seq<Json>): (r: seq<int>)
    requires Assignments(items).Ok?
    ensures Increasing(r)
    ensures forall n :: n in r <==> n in Assignments(items).value
  {
    if |items| == 0 then []
    else
      var init := items[..|items| - 1];
      var item := items[|items| - 1];
      assert Assignments(init).Ok?;
      var ns := Numbers(init);
      if !Assigns(item) then ns else InsertSorted(ns, IntOf(item.items[0]).value)
  }

  /**
   * What _parse_preset_assignments returns: {} for anything but a list; for a list,
   * the assignments above under PresetAssignments and the sorted list of assigned
   * numbers under AvailablePresets. The error of a bad number propagates.
   */
  function PresetsOf(presetData: Json): (r: Result<Data, Exc>)
    ensures !presetData.JArr? ==> r == Ok(map[])
    ensures presetData.JArr? ==> (r.Ok? <==> Assignments(presetData.items).Ok?)
    ensures presetData.JArr? && r.Err? ==> r.error == Assignments(presetData.items).error
    ensures presetData.JArr? && r.Ok? ==>
      r.value.Keys == {PresetAssignments, AvailablePresets} &&
      r.value[PresetAssignments] == Presets(Assignments(presetData.items).value) &&
      r.value[AvailablePresets].Ints? &&
      Increasing(r.value[AvailablePresets].xs) &&
      forall n :: n in r.value[AvailablePresets].xs <==> n in Assignments(presetData.items).value
  {
    if !presetData.JArr? then Ok(map[])
    else
      match Assignments(presetData.items)
      case Err(e) => Err(e)
      case Ok(m) => Ok(map[PresetAssignments := Presets(m), AvailablePresets := Ints(Numbers(presetData.items))])
  }

  /** _parse_preset_assignments, its loop adding each taken item in turn. */
  method ParsePresetAssignments(presetData: Json) returns (r: Result<Data, Exc>)
    ensures r == PresetsOf(presetData)
  {
    if !presetData.JArr? {
      return Ok(map[]);
    }
    var items := presetData.items;
    var assignments: map<int, Json> := map[];
    var numbers: seq<int> := [];
    for i := 0 to |items|
      invariant Assignments(items[..i]) == Ok(assignments)
      invariant numbers == Numbers(items[..i])
    {
      assert items[..i + 1][..i] == items[..i];
      var item := items[i];
      if item.JArr? && |item.items| >= PresetAssignmentTupleSize {
        var presetNum, profileName := item.items[0], item.items[1];
        if Truthy(profileName) {
          var num := IntOf(presetNum);
          if num.Err? {
            AssignmentsAfterError(items, i + 1);
            return Err(num.error);
          }
          assignments := assignments[num.value := profileName];
          numbers := InsertSorted(numbers, num.value);
        }
      }
    }
    assert items[..|items|] == items;
    r := Ok(map[PresetAssignments := Presets(assignments), AvailablePresets := Ints(numbers)]);
  }

  /** Presets with an empty profile name are dropped; the rest keep their numbers. */
  lemma PresetExample()
    ensures Assignments([JArr([JInt(1), JStr("Cinema")]), JArr([JInt(2), JStr("")]), JArr([JInt(3), JStr("Gaming")])])
      == Ok(map[1 := JStr("Cinema"), 3 := JStr("Gaming")])
  {
    var items := [JArr([JInt(1), JStr("Cinema")]), JArr([JInt(2), JStr("")]), JArr([JInt(3), JStr("Gaming")])];
    assert items[..1][..0] == [];
    assert Assignments(items[..1]) == Ok(map[1 := JStr("Cinema")]);
    assert items[..2][..1] == items[..1];
    assert Assignments(items[..2]) == Ok(map[1 := JStr("Cinema")]);
    assert items[..3][..2] == items[..2];
    assert Assignments(items[..3]) == Ok(map[1 := JStr("Cinema"), 3 := JStr("Gaming")]);
    assert items[..3] == items;
  }

  // Active properties -------------------------------------------------------------

  const SourceKey := "image.window.main.source"
  const PresetsKey := "profile.presetassignments"
  const ProfilesKey := "profile.profiles"

  const ActiveNames := [
    "illumination.sources.laser.power", LaserMinKey, LaserMaxKey, SourceKey,
    "image.brightness", "image.contrast", "image.saturation", PresetsKey, ProfilesKey]

  /** The keys _fetch_data writes itself; the active block writes only the others. */
  predicate IsBaseKey(k: Key) {
    k.State? || k.SerialNumber? || k.Model? || k.FirmwareVersion?
  }

  /** The keys the try block of _get_active_properties writes. */
  predicate ActiveKey(k: Key) {
    !IsBaseKey(k) && k != AvailableSources
  }

  /**
   * The first part of the try block of _get_active_properties, run on an empty dict:
   * the four floats, the source when it is reported, and the laser bounds.
   */
  function ReadingsOf(h: Host, results: Fields): (r: Result<Data, Exc>)
    ensures r.Err? ==> r.error == OverflowError
    ensures r.Ok? ==> LaserMin in r.value && LaserMax in r.value
  {
    match FloatEntries(h, results, FloatMappings)
    case Err(e) => Err(e)
    case Ok(floats) =>
      var picture := if Has(results, SourceKey) then floats[Source := Val(Get(results, SourceKey).value)] else floats;
      match LaserBounds(h, results)
      case Err(e) => Err(e)
      case Ok(bounds) => Ok(WithBounds(picture, bounds.0, bounds.1))
  }

  /** The readings raise only for an int beyond the double range, among the floats or the bounds. */
  lemma ReadingsFail(h: Host, results: Fields)
    ensures ReadingsOf(h, results).Err? <==>
      (exists i :: 0 <= i < |FloatMappings| && Overflows(h, results, FloatMappings[i])) || LaserBounds(h, results).Err?
    ensures ReadingsOf(h, results).Err? ==> ReadingsOf(h, results).error == OverflowError
  {
    FloatEntriesFail(h, results, FloatMappings);
  }

  /**
   * What the readings hold: each float key as its mapping coerced it, the source
   * exactly when it is reported, and both laser bounds as LaserBounds chose them;
   * nothing else.
   */
  lemma ReadingsMeaning(h: Host, results: Fields)
    requires ReadingsOf(h, results).Ok?
    ensures var r := ReadingsOf(h, results).value;
      && r.Keys <= FloatKeys + {Source, LaserMin, LaserMax}
      && (forall i :: 0 <= i < |FloatMappings| ==> FloatParsed(h, results, map[], r, FloatMappings[i]))
      && (Source in r <==> Has(results, SourceKey))
      && (Has(results, SourceKey) ==> r[Source] == Val(Get(results, SourceKey).value))
      && LaserBounds(h, results).Ok?
      && LaserMin in r && r[LaserMin] == Val(JFloat(LaserBounds(h, results).value.0))
      && LaserMax in r && r[LaserMax] == Val(JFloat(LaserBounds(h, results).value.1))
  {
    var floats := FloatEntries(h, results, FloatMappings).value;
    var src := Get(results, SourceKey);
    var picture := if src.Some? then floats[Source := Val(src.value)] else floats;
    var bounds := LaserBounds(h, results).value;
    var r := WithBounds(picture, bounds.0, bounds.1);
    assert ReadingsOf(h, results).value == r;
    FloatKeysWritten();
    FloatEntriesMeaning(h, results, FloatMappings);
    BoundsShape(floats, src, bounds.0, bounds.1);
    forall i | 0 <= i < |FloatMappings| ensures FloatParsed(h, results, map[], r, FloatMappings[i]) {
      var m := FloatMappings[i];
      assert m.0 in FloatKeys;
      ParsedKept(h, results, map[], floats, r, m);
    }
  }

  /** The readings map built from float entries, an optional source and two bounds. */
  lemma BoundsShape(floats: Data, src: Option<Json>, lo: real, hi: real)
    requires floats.Keys <= FloatKeys
    ensures var r := WithBounds(if src.Some? then floats[Source := Val(src.value)] else floats, lo, hi);
      && r.Keys <= FloatKeys + {Source, LaserMin, LaserMax}
      && (Source in r <==> src.Some?)
      && (src.Some? ==> r[Source] == Val(src.value))
      && LaserMin in r && r[LaserMin] == Val(JFloat(lo))
      && LaserMax in r && r[LaserMax] == Val(JFloat(hi))
      && forall k :: k in FloatKeys ==> Kept(floats, r, k)
  {
  }

  /** Whether a mapping was applied depends only on its own key. */
  lemma ParsedKept(h: Host, results: Fields, data: Data, a: Data, b: Data, m: (Key, string))
    requires FloatParsed(h, results, data, a, m) && Kept(a, b, m.0)
    ensures FloatParsed(h, results, data, b, m)
  {
  }

  /** The floats, the source and the laser bounds, written in that order. */
  method ParseReadings(h: Host, results: Fields) returns (r: Result<Data, Exc>)
    ensures r == ReadingsOf(h, results)
  {
    var floats := ParseFloatProperties(h, results, map[]);
    if floats.Err? {
      return Err(floats.error);
    }
    var data := floats.value;
    assert data == FloatEntries(h, results, FloatMappings).value;
    if Has(results, SourceKey) {
      data := data[Source := Val(Get(results, SourceKey).value)];
    }
    r := ParseLaserConstraints(h, results, data);
  }

  /**
   * The rest of the try block: the entries _parse_preset_assignments returns when
   * the presets are reported, whose parse can raise, and the profile list when it
   * is reported as a list.
   */
  function CatalogueOf(results: Fields): (r: Result<Data, Exc>)
    ensures r.Err? <==> Has(results, PresetsKey) && PresetsOf(Get(results, PresetsKey).value).Err?
    ensures r.Err? ==> r.error == ValueError || r.error == TypeError
    ensures r.Ok? ==> r.value.Keys <= {PresetAssignments, AvailablePresets, Profiles}
    ensures r.Ok? && Has(results, PresetsKey) ==> var p := PresetsOf(Get(results, PresetsKey).value).value;
      forall k :: k in p ==> k in r.value && r.value[k] == p[k]
    ensures r.Ok? && Has(results, PresetsKey) ==> var p := PresetsOf(Get(results, PresetsKey).value).value;
      (PresetAssignments in r.value <==> PresetAssignments in p) && (AvailablePresets in r.value <==> AvailablePresets in p)
    ensures r.Ok? && !Has(results, PresetsKey) ==> PresetAssignments !in r.value && AvailablePresets !in r.value
    ensures r.Ok? ==> (Profiles in r.value <==> Has(results, ProfilesKey) && Get(results, ProfilesKey).value.JArr?)
    ensures r.Ok? && Profiles in r.value ==> r.value[Profiles] == Val(Get(results, ProfilesKey).value)
  {
    var presets := if Has(results, PresetsKey) then PresetsOf(Get(results, PresetsKey).value) else Ok(map[]);
    var presetData := GetOr(results, PresetsKey, JNull);
    AssignmentsFail(if presetData.JArr? then presetData.items else []);
    match presets
    case Err(e) => Err(e)
    case Ok(p) =>
      var profiles := GetOr(results, ProfilesKey, JNull);
      Ok(if profiles.JArr? then p[Profiles := Val(profiles)] else p)
  }

  /** The presets and the profile list, laid over the readings already in `data`. */
  method ParseCatalogue(results: Fields, data: Data) returns (r: Result<Data, Exc>)
    ensures r == Overlay(data, CatalogueOf(results))
    ensures r.Ok? ==> forall key :: key !in {PresetAssignments, AvailablePresets, Profiles} ==> Kept(r.value, data, key)
  {
    var entries: Data := map[];
    if Has(results, PresetsKey) {
      var presets := ParsePresetAssignments(Get(results, PresetsKey).value);
      if presets.Err? {
        return Err(presets.error);
      }
      entries := presets.value;
    }
    if Has(results, ProfilesKey) {
      var profiles := Get(results, ProfilesKey).value;
      if profiles.JArr? {
        entries := entries[Profiles := Val(profiles)];
      }
    }
    r := Ok(data + entries);
  }

  /**
   * The data the try block of _get_active_properties leaves once the batch is a
   * dict: the readings, then the catalogue laid over them.
   */
  function ActiveBlock(h: Host, results: Fields): (r: Result<Data, Exc>)
    ensures r.Err? ==> r.error == OverflowError || r.error == ValueError || r.error == TypeError
    ensures r.Ok? ==> LaserMin in r.value && LaserMax in r.value
  {
    match ReadingsOf(h, results)
    case Err(e) => Err(e)
    case Ok(d) => Overlay(d, CatalogueOf(results))
  }

  /**
   * A block that does not raise is the readings with the catalogue laid over them,
   * and holds only active keys.
   */
  lemma ActiveBlockMeaning(h: Host, results: Fields)
    requires ActiveBlock(h, results).Ok?
    ensures var r := ActiveBlock(h, results).value;
      && ReadingsOf(h, results).Ok? && CatalogueOf(results).Ok?
      && r == ReadingsOf(h, results).value + CatalogueOf(results).value
      && (forall k :: k in r ==> ActiveKey(k))
  {
    var d := ReadingsOf(h, results).value;
    var c := CatalogueOf(results).value;
    ReadingsMeaning(h, results);
    KeysActive(d, c);
  }

  /** Readings keys and catalogue keys are all active keys. */
  lemma KeysActive(d: Data, c: Data)
    requires d.Keys <= FloatKeys + {Source, LaserMin, LaserMax}
    requires c.Keys <= {PresetAssignments, AvailablePresets, Profiles}
    ensures forall k :: k in d + c ==> ActiveKey(k)
  {
  }

  /** The try block of _get_active_properties once the batch is a dict. */
  method ParseActive(h: Host, results: Fields) returns (r: Result<Data, Exc>)
    ensures r == ActiveBlock(h, results)
  {
    var readings := ParseReadings(h, results);
    if readings.Err? {
      return Err(readings.error);
    }
    r := ParseCatalogue(results, readings.value);
  }

  /** `data` with available_sources added from the source-list call, unless it raised StateError. */
  function WithSources(data: Data, sources: Result<Json, Exc>): (r: Result<Data, Exc>)
    ensures sources.Ok? ==> r == Ok(data[AvailableSources := Val(sources.value)])
    ensures sources.Err? && sources.error == StateError ==> r == Ok(data)
    ensures sources.Err? && sources.error != StateError ==> r == Err(sources.error)
  {
    match sources
    case Ok(v) => Ok(data[AvailableSources := Val(v)])
    case Err(e) => if e == StateError then Ok(data) else Err(e)
  }

  /**
   * What _get_active_properties returns or raises, given the outcome of its batch
   * and of the source-list call: {} for a batch that is not a dict; for a dict, the
   * active block with available_sources; for a batch that raised StateError, the
   * default laser bounds with available_sources. A StateError from the source list
   * only leaves that key out; every other error propagates.
   */
  function ActiveOutcome(h: Host, batch: Result<Json, Exc>, sources: Result<Json, Exc>): (r: Result<Data, Exc>)
    ensures r.Ok? ==> forall k :: k in r.value ==> !IsBaseKey(k)
    ensures batch.Ok? && !batch.value.JObj? ==> r == Ok(map[])
    ensures batch.Ok? && batch.value.JObj? ==> var block := ActiveBlock(h, batch.value.fields);
      && (block.Err? ==> r == Err(block.error))
      && (block.Ok? ==> r == WithSources(block.value, sources))
    ensures batch.Err? && batch.error != StateError ==> r == Err(batch.error)
    ensures batch.Err? && batch.error == StateError ==>
      r == WithSources(map[LaserMin := Val(JFloat(DefaultLaserMin)), LaserMax := Val(JFloat(DefaultLaserMax))], sources)
  {
    match batch
    case Ok(v) =>
      if !v.JObj? then Ok(map[])
      else (
        match ActiveBlock(h, v.fields)
        case Err(e) => Err(e)
        case Ok(d) => ActiveBlockMeaning(h, v.fields); WithSources(d, sources))
    case Err(e) =>
      if e == StateError then WithSources(WithBounds(map[], DefaultLaserMin, DefaultLaserMax), sources)
      else Err(e)
  }

  /**
   * _get_active_properties run as device calls `k` (the batch) and `k + 1` (the
   * source list), the second made only when the try block has not returned or raised.
   */
  method GetActiveProperties(h: Host, dev: Device, k: nat) returns (r: Result<Data, Exc>, calls: seq<Call>)
    ensures r == ActiveOutcome(h, dev(k, GetProperties(ActiveNames)), dev(k + 1, GetAvailableSources))
    ensures calls == ActiveCalls(h, dev(k, GetProperties(ActiveNames)))
  {
    calls := [GetProperties(ActiveNames)];
    var batch := dev(k, GetProperties(ActiveNames));
    var data: Data := map[];
    if batch.Ok? {
      if !batch.value.JObj? {
        return Ok(data), calls;
      }
      var parsed := ParseActive(h, batch.value.fields);
      if parsed.Err? {
        return Err(parsed.error), calls;
      }
      data := parsed.value;
    } else if batch.error == StateError {
      data := data[LaserMin := Val(JFloat(DefaultLaserMin))][LaserMax := Val(JFloat(DefaultLaserMax))];
    } else {
      return Err(batch.error), calls;
    }
    calls := calls + [GetAvailableSources];
    var sources := dev(k + 1, GetAvailableSources);
    if sources.Ok? {
      data := data[AvailableSources := Val(sources.value)];
    } else if sources.error != StateError {
      return Err(sources.error), calls;
    }
    r := Ok(data);
  }

  /**
   * The calls _get_active_properties makes for the outcome of its batch: the batch,
   * then the source list exactly when the try block neither returned early nor
   * raised.
   */
  function ActiveCalls(h: Host, batch: Result<Json, Exc>): (calls: seq<Call>)
    ensures |calls| >= 1 && calls[0] == GetProperties(ActiveNames)
    ensures GetAvailableSources in calls <==>
      (batch.Ok? && batch.value.JObj? && ActiveBlock(h, batch.value.fields).Ok?) || (batch.Err? && batch.error == StateError)
    ensures Disconnect !in calls
  {
    if (batch.Ok? && batch.value.JObj? && ActiveBlock(h, batch.value.fields).Ok?) || (batch.Err? && batch.error == StateError)
    then [GetProperties(ActiveNames), GetAvailableSources]
    else [GetProperties(ActiveNames)]
  }

  // Info properties, power states and polling intervals ---------------------------

  const InfoNames := ["system.serialnumber", "system.modelname", "system.firmwareversion"]

  /**
   * _get_info_properties given the outcome of its batch: the three values under the
   * coordinator's own key names, None for a missing one; `result.get` on anything
   * but a dict raises AttributeError.
   */
  function InfoOf(batch: Result<Json, Exc>): (r: Result<Data, Exc>)
    ensures batch.Err? ==> r == Err(batch.error)
    ensures batch.Ok? && !batch.value.JObj? ==> r == Err(AttributeError)
    ensures r.Ok? ==> r.value.Keys == {SerialNumber, Model, FirmwareVersion}
    ensures r.Ok? ==> (batch.Ok? && batch.value.JObj? &&
      r.value[SerialNumber] == Val(GetOr(batch.value.fields, "system.serialnumber", JNull)) &&
      r.value[Model] == Val(GetOr(batch.value.fields, "system.modelname", JNull)) &&
      r.value[FirmwareVersion] == Val(GetOr(batch.value.fields, "system.firmwareversion", JNull)))
  {
    match batch
    case Err(e) => Err(e)
    case Ok(result) =>
      if !result.JObj? then Err(AttributeError)
      else
        var f := result.fields;
        Ok(map[SerialNumber := Val(GetOr(f, "system.serialnumber", JNull)),
               Model := Val(GetOr(f, "system.modelname", JNull)),
               FirmwareVersion := Val(GetOr(f, "system.firmwareversion", JNull))])
  }

  const PowerStatesActive := ["on", "ready"]
  const PowerStatesTransitional := ["conditioning", "deconditioning"]
  const PowerStatesStandby := ["standby", "eco", "boot"]

  /** `state in POWER_STATES_ACTIVE`: only the strings "on" and "ready". */
  predicate IsActive(state: Json) {
    state.JStr? && state.s in PowerStatesActive
  }

  lemma TransitionalAndStandbyAreNotActive(s: string)
    requires s in PowerStatesTransitional || s in PowerStatesStandby
    ensures !IsActive(JStr(s))
  {
  }

  /**
   * The polling interval for a state: the table's entry for the power state the
   * value names, or the default when it names none (PowerState() raises
   * ValueError) or the table has no entry for it.
   */
  function IntervalFor(state: Json, intervals: map<string, real>, default: real): (r: real)
    ensures state.JStr? && state.s in intervals ==> r == intervals[state.s]
    ensures !(state.JStr? && state.s in intervals) ==> r == default
    ensures r == default || r in intervals.Values
  {
    if state.JStr? && state.s in intervals then intervals[state.s] else default
  }

  /** The errors the disconnect calls are allowed to raise without consequence. */
  predicate Swallowed(e: Exc) {
    e == ConnectionError || IsOSError(e)
  }

  // Error mapping -----------------------------------------------------------------

  datatype Failure = TimedOut | ConnectionLost | Unexpected

  /** How one call of _async_update_data ends. */
  datatype UpdateOutcome =
    | Updated(data: Data)        // the dict returned to the framework
    | UpdateFailed(why: Failure) // UpdateFailed raised
    | AuthFailed                 // ConfigEntryAuthFailed raised
    | Raised(e: Exc)             // an exception no handler turns into one of the above

  /** Whether the handler for an exception of the cycle disconnects first. */
  predicate CleansUp(e: Exc) {
    e != AuthError && e != Cancelled
  }

  /** What the handler raises for an exception of the cycle, cleanup aside. */
  function Reported(e: Exc): (o: UpdateOutcome)
    ensures o.AuthFailed? <==> e == AuthError
    ensures o.Raised? <==> e == Cancelled
    ensures o.UpdateFailed? <==> CleansUp(e)
    ensures o == UpdateFailed(TimedOut) <==> e == TimeoutError
    ensures o == UpdateFailed(ConnectionLost) <==> e == ConnectionError
  {
    match e
    case TimeoutError => UpdateFailed(TimedOut)
    case AuthError => AuthFailed
    case ConnectionError => UpdateFailed(ConnectionLost)
    case Cancelled => Raised(Cancelled)
    case _ => UpdateFailed(Unexpected)
  }

  /**
   * The handler's result after its cleanup disconnect: unchanged when the disconnect
   * succeeds or fails in a way the handler catches; otherwise the disconnect's own
   * exception escapes instead.
   */
  function AfterCleanup(reported: UpdateOutcome, cleanup: Result<Json, Exc>): (o: UpdateOutcome)
    ensures cleanup.Ok? || Swallowed(cleanup.error) ==> o == reported
    ensures cleanup.Err? && !Swallowed(cleanup.error) ==> o == Raised(cleanup.error)
  {
    if cleanup.Err? && !Swallowed(cleanup.error) then Raised(cleanup.error) else reported
  }

  /**
   * Every exception of the cycle other than AuthError and cancellation is reported
   * as UpdateFailed, unless the cleanup disconnect itself raises something the
   * handler does not catch; a swallowed cleanup error changes nothing.
   */
  lemma FailuresBecomeUpdateFailed(e: Exc, cleanup: Result<Json, Exc>)
    requires IsException(e) && e != AuthError
    ensures AfterCleanup(Reported(e), cleanup).UpdateFailed? || AfterCleanup(Reported(e), cleanup) == Raised(cleanup.error)
    ensures cleanup.Ok? || Swallowed(cleanup.error) ==> AfterCleanup(Reported(e), cleanup).UpdateFailed?
  {
  }

  // Unique id ---------------------------------------------------------------------

  /**
   * unique_id: a truthy serial_number from the data, else the fallback id fixed at
   * construction.
   */
  function UniqueId(data: Option<Data>, fallbackId: string): (r: Value)
    ensures data.Some? && SerialNumber in data.value && ValueTruthy(data.value[SerialNumber]) ==>
      r == data.value[SerialNumber]
    ensures !(data.Some? && SerialNumber in data.value && ValueTruthy(data.value[SerialNumber])) ==>
      r == Val(JStr(fallbackId))
    ensures |fallbackId| > 0 ==> ValueTruthy(r)
  {
    if data.Some? && |data.value| > 0 && SerialNumber in data.value && ValueTruthy(data.value[SerialNumber]) then
      data.value[SerialNumber]
    else Val(JStr(fallbackId))
  }

  /** Two updates that report the same truthy serial number give the same id, whatever else they hold. */
  lemma UniqueIdIsStable(a: Data, b: Data, fallbackId: string)
    requires SerialNumber in a && SerialNumber in b && a[SerialNumber] == b[SerialNumber]
    ensures UniqueId(Some(a), fallbackId) == UniqueId(Some(b), fallbackId)
  {
  }

  // The coordinator ---------------------------------------------------------------

  /** The keys every successful update holds. */
  const BaseKeys: set<Key> := {State, SerialNumber, Model, FirmwareVersion}

  /**
   * What a successful update holds for state `state`: the state, the three info
   * values as _get_info_properties returned them, and, only when the state is
   * active, what _get_active_properties returned (device calls 2 and 3).
   */
  predicate Polled(h: Host, dev: Device, state: Json, data: Data) {
    var info := InfoOf(dev(1, GetProperties(InfoNames)));
    var active := ActiveOutcome(h, dev(2, GetProperties(ActiveNames)), dev(3, GetAvailableSources));
    && BaseKeys <= data.Keys
    && data[State] == Val(state)
    && info.Ok?
    && data[SerialNumber] == info.value[SerialNumber]
    && data[Model] == info.value[Model]
    && data[FirmwareVersion] == info.value[FirmwareVersion]
    && (!IsActive(state) ==> data.Keys == BaseKeys)
    && (IsActive(state) ==> active.Ok? && forall k :: !IsBaseKey(k) ==> Kept(data, active.value, k))
  }

  /**
   * The data dict _fetch_data builds once the state is known, or the error that
   * ends it: the info batch's, or, for an active state, the active block's.
   */
  function PollOf(h: Host, dev: Device, state: Json): (r: Result<Data, Exc>)
    ensures InfoOf(dev(1, GetProperties(InfoNames))).Err? ==> r == Err(InfoOf(dev(1, GetProperties(InfoNames))).error)
    ensures (InfoOf(dev(1, GetProperties(InfoNames))).Ok? && IsActive(state) &&
             ActiveOutcome(h, dev(2, GetProperties(ActiveNames)), dev(3, GetAvailableSources)).Err?) ==>
      r == Err(ActiveOutcome(h, dev(2, GetProperties(ActiveNames)), dev(3, GetAvailableSources)).error)
    ensures r.Ok? ==> Polled(h, dev, state, r.value)
  {
    match InfoOf(dev(1, GetProperties(InfoNames)))
    case Err(e) => Err(e)
    case Ok(info) =>
      var base := map[State := Val(state)] + info;
      if !IsActive(state) then Ok(base)
      else
        match ActiveOutcome(h, dev(2, GetProperties(ActiveNames)), dev(3, GetAvailableSources))
        case Err(e) => Err(e)
        case Ok(active) => Ok(base + active)
  }

  /**
   * The device calls of _fetch_data after the state: the info batch, then, for an
   * active state whose info did not raise, those of _get_active_properties.
   */
  function PollCalls(h: Host, dev: Device, state: Json): (calls: seq<Call>)
    ensures |calls| >= 1 && calls[0] == GetProperties(InfoNames)
    ensures |calls| > 1 <==> InfoOf(dev(1, GetProperties(InfoNames))).Ok? && IsActive(state)
    ensures |calls| > 1 ==> calls[1..] == ActiveCalls(h, dev(2, GetProperties(ActiveNames)))
    ensures Disconnect !in calls
  {
    [GetProperties(InfoNames)] +
      if InfoOf(dev(1, GetProperties(InfoNames))).Ok? && IsActive(state)
      then ActiveCalls(h, dev(2, GetProperties(ActiveNames)))
      else []
  }

  /** The middle of _fetch_data once the state is known: info (device call 1), then the active block. */
  method Assemble(h: Host, dev: Device, state: Json) returns (r: Result<Data, Exc>, calls: seq<Call>)
    ensures r == PollOf(h, dev, state)
    ensures calls == PollCalls(h, dev, state)
    ensures |calls| >= 1 && calls[0] == GetProperties(InfoNames)
    ensures InfoOf(dev(1, GetProperties(InfoNames))).Err? ==> |calls| == 1
    ensures r.Ok? ==> (IsActive(state) <==> |calls| >= 2 && calls[1] == GetProperties(ActiveNames))
    ensures !IsActive(state) ==> |calls| == 1
    ensures forall i :: 0 <= i < |calls| ==> !calls[i].Disconnect?
  {
    var data: Data := map[State := Val(state)];
    calls := [GetProperties(InfoNames)];
    var info := InfoOf(dev(1, GetProperties(InfoNames)));
    if info.Err? {
      return Err(info.error), calls;
    }
    data := data + info.value;
    if IsActive(state) {
      var active, more := GetActiveProperties(h, dev, 2);
      calls := calls + more;
      if active.Err? {
        return Err(active.error), calls;
      }
      data := data + active.value;
    }
    r := Ok(data);
  }

  /**
   * BarcoDataUpdateCoordinator. The interval table, its default and the
   * close-after-update switch are configuration; `fallbackId` is the hash of
   * "host:port" computed at construction.
   */
  class Coordinator {
    const lib: Host
    const fallbackId: string
    const intervals: map<string, real>
    const defaultInterval: real
    const closeAfterUpdate: bool
    var updateInterval: real
    var lastUpdate: real

    constructor (lib: Host, fallbackId: string, intervals: map<string, real>, defaultInterval: real, closeAfterUpdate: bool)
      ensures this.lib == lib && this.fallbackId == fallbackId && this.intervals == intervals
      ensures this.defaultInterval == defaultInterval && this.closeAfterUpdate == closeAfterUpdate
      ensures updateInterval == defaultInterval && lastUpdate == 0.0
    {
      this.lib := lib;
      this.fallbackId := fallbackId;
      this.intervals := intervals;
      this.defaultInterval := defaultInterval;
      this.closeAfterUpdate := closeAfterUpdate;
      updateInterval := defaultInterval;
      lastUpdate := 0.0;
    }

    /**
     * _enforce_rate_limit. `now` is the first clock reading and `wake(d)` the
     * reading taken after sleeping `d` seconds (no sleep: `d` = 0), which is at least
     * `d` later. The recorded time moves on by at least one second, even when the
     * clock has gone back.
     */
    method EnforceRateLimit(now: real, wake: real -> real) returns (slept: real)
      requires forall d :: d >= 0.0 ==> wake(d) >= now + d
      modifies this`lastUpdate
      ensures slept >= 0.0 && lastUpdate == wake(slept)
      ensures lastUpdate >= old(lastUpdate) + 1.0
      ensures now - old(lastUpdate) >= 1.0 ==> slept == 0.0
      ensures now - old(lastUpdate) < 1.0 ==> now + slept == old(lastUpdate) + 1.0
    {
      var elapsed := now - lastUpdate;
      slept := 0.0;
      if elapsed < 1.0 {
        slept := 1.0 - elapsed;
      }
      lastUpdate := wake(slept);
    }

    /**
     * What _fetch_data leaves for the device `dev`, the rate limit aside: the result
     * `r`, the device calls in order, and the polling interval `after` given the
     * interval `before` it started with. A raise from the state, info or active calls
     * ends it with the interval unchanged; otherwise the interval is the state's, and
     * the data is returned unless the configured disconnect raises an error other
     * than ConnectionError or OSError.
     */
    predicate Fetched(dev: Device, r: Result<Data, Exc>, calls: seq<Call>, before: real, after: real) {
      match dev(0, GetState)
      case Err(e) => r == Err(e) && calls == [GetState] && after == before
      case Ok(state) =>
        var head := [GetState] + PollCalls(lib, dev, state);
        match PollOf(lib, dev, state)
        case Err(e) => r == Err(e) && calls == head && after == before
        case Ok(data) =>
          && after == IntervalFor(state, intervals, defaultInterval)
          && if closeAfterUpdate
             then calls == head + [Disconnect] && r == Disconnected(data, dev(|head|, Disconnect))
             else calls == head && r == Ok(data)
    }

    /** What the fetched data becomes once the final disconnect returned or raised `closed`. */
    function Disconnected(data: Data, closed: Result<Json, Exc>): (r: Result<Data, Exc>)
      ensures r.Err? <==> closed.Err? && !Swallowed(closed.error)
      ensures r.Ok? ==> r.value == data
      ensures r.Err? ==> r.error == closed.error
    {
      if closed.Err? && !Swallowed(closed.error) then Err(closed.error) else Ok(data)
    }

    /**
     * The promises of _fetch_data one by one: a raise from the state call or the
     * poll is returned and leaves the interval alone; a poll that succeeds sets the
     * state's interval and returns its data, which is Polled, unless the configured
     * disconnect raises an error it does not ignore, which is then returned.
     */
    lemma FetchedMeaning(dev: Device, r: Result<Data, Exc>, calls: seq<Call>, before: real, after: real)
      requires Fetched(dev, r, calls, before, after)
      ensures |calls| >= 1 && calls[0] == GetState
      ensures |calls| >= 1 && (calls[|calls| - 1] == Disconnect <==>
        dev(0, GetState).Ok? && PollOf(lib, dev, dev(0, GetState).value).Ok? && closeAfterUpdate)
      ensures dev(0, GetState).Err? ==> r == Err(dev(0, GetState).error) && after == before
      ensures dev(0, GetState).Ok? && PollOf(lib, dev, dev(0, GetState).value).Err? ==>
        r == Err(PollOf(lib, dev, dev(0, GetState).value).error) && after == before
      ensures dev(0, GetState).Ok? && PollOf(lib, dev, dev(0, GetState).value).Ok? ==>
        after == IntervalFor(dev(0, GetState).value, intervals, defaultInterval)
      ensures dev(0, GetState).Ok? && PollOf(lib, dev, dev(0, GetState).value).Ok? &&
              (!closeAfterUpdate || dev(|calls| - 1, Disconnect).Ok? || Swallowed(dev(|calls| - 1, Disconnect).error)) ==>
        r == Ok(PollOf(lib, dev, dev(0, GetState).value).value)
      ensures dev(0, GetState).Ok? && PollOf(lib, dev, dev(0, GetState).value).Ok? && closeAfterUpdate &&
              dev(|calls| - 1, Disconnect).Err? && !Swallowed(dev(|calls| - 1, Disconnect).error) ==>
        r == Err(dev(|calls| - 1, Disconnect).error)
      ensures r.Ok? ==> Polled(lib, dev, dev(0, GetState).value, r.value)
    {
      if dev(0, GetState).Ok? {
        var state := dev(0, GetState).value;
        var head := [GetState] + PollCalls(lib, dev, state);
        assert Disconnect !in head;
        assert head[|head| - 1] != Disconnect;
      }
    }

    /**
     * _fetch_data: rate limit, state, info, the active block when the state is "on"
     * or "ready", the polling interval for the state, and the optional disconnect
     * whose ConnectionError or OSError is ignored. `calls` lists the device calls in
     * order.
     */
    method FetchData(dev: Device, now: real, wake: real -> real) returns (r: Result<Data, Exc>, calls: seq<Call>)
      requires forall d :: d >= 0.0 ==> wake(d) >= now + d
      modifies this`lastUpdate, this`updateInterval
      ensures lastUpdate >= old(lastUpdate) + 1.0
      ensures Fetched(dev, r, calls, old(updateInterval), updateInterval)
    {
      var _ := EnforceRateLimit(now, wake);
      calls := [GetState];
      var got := dev(0, GetState);
      if got.Err? {
        return Err(got.error), calls;
      }
      var state := got.value;
      var assembled, more := Assemble(lib, dev, state);
      calls := calls + more;
      if assembled.Err? {
        return Err(assembled.error), calls;
      }
      var newInterval := IntervalFor(state, intervals, defaultInterval);
      if updateInterval != newInterval {
        updateInterval := newInterval;
      }
      if closeAfterUpdate {
        var closed := dev(|calls|, Disconnect);
        calls := calls + [Disconnect];
        if closed.Err? && !Swallowed(closed.error) {
          return Err(closed.error), calls;
        }
      }
      r := Ok(assembled.value);
    }

    /**
     * _async_update_data: the fetched data, or the handler of its exception, which
     * disconnects first unless the exception is an AuthError (or a cancellation) and
     * then raises UpdateFailed or ConfigEntryAuthFailed. `fetched` is what
     * _fetch_data returned or raised, and `calls` starts with its calls.
     */
    method AsyncUpdateData(dev: Device, now: real, wake: real -> real)
      returns (o: UpdateOutcome, fetched: Result<Data, Exc>, calls: seq<Call>)
      requires forall d :: d >= 0.0 ==> wake(d) >= now + d
      modifies this`lastUpdate, this`updateInterval
      ensures var cleaned := fetched.Err? && CleansUp(fetched.error);
        && |calls| >= 1
        && Fetched(dev, fetched, if cleaned then calls[..|calls| - 1] else calls, old(updateInterval), updateInterval)
        && (cleaned ==> |calls| >= 2 && calls[|calls| - 1] == Disconnect)
      ensures fetched.Ok? ==> o == Updated(fetched.value)
      ensures fetched.Err? && !CleansUp(fetched.error) ==> o == Reported(fetched.error)
      ensures fetched.Err? && CleansUp(fetched.error) ==>
        o == AfterCleanup(Reported(fetched.error), dev(|calls| - 1, Disconnect))
      ensures lastUpdate >= old(lastUpdate) + 1.0
    {
      fetched, calls := FetchData(dev, now, wake);
      if fetched.Ok? {
        return Updated(fetched.value), fetched, calls;
      }
      o := Reported(fetched.error);
      if CleansUp(fetched.error) {
        var cleanup := dev(|calls|, Disconnect);
        calls := calls + [Disconnect];
        o := AfterCleanup(o, cleanup);
      }
    }

    /** unique_id for the data the framework last stored. */
    function UniqueIdOf(data: Option<Data>): (r: Value)
      ensures r == UniqueId(data, fallbackId)
    {
      UniqueId(data, fallbackId)
    }
  }
}
