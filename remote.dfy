/**
 * The remote entity (remote.py): it turns a list of command strings into device
 * calls, reports whether the projector is on, and switches its power. Each
 * device call is followed by its outcome, given as an oracle: `dev(k)` is the
 * exception the k-th device call raises, or None when it returns.
 */
module Remote {
  import opened Wrappers
  import opened Json
  import opened Exceptions
  import opened Py
  import Coordinator

  /** A call the remote entity makes on the device, or its refresh request to the coordinator. */
  datatype RemoteCall =
    | SetSource(name: string)
    | ActivatePreset(number: int)
    | ActivateProfile(name: string)
    | PowerOn
    | PowerOff
    | RequestRefresh

  /** The outcome of the k-th device call: the exception it raises, or None. */
  type Device = nat -> Option<Exc>

  const SourcePrefix := "source_"
  const PresetPrefix := "preset_"
  const ProfilePrefix := "profile_"

  /** `s.startswith(p)`. */
  predicate StartsWith(s: string, p: string) {
    |p| <= |s| && s[..|p|] == p
  }

  /**
   * The device call one command asks for: the prefixes are tried in the order
   * source_, preset_, profile_; the rest of the command after 7, 7 and 8
   * characters is the argument. A preset whose number int() rejects, and a
   * command with none of the prefixes, ask for nothing.
   */
  function Dispatch(cmd: string): Option<RemoteCall> {
    if StartsWith(cmd, SourcePrefix) then Some(SetSource(cmd[7..]))
    else if StartsWith(cmd, PresetPrefix) then
      match ParseInt(cmd[7..])
      case Some(n) => Some(ActivatePreset(n))
      case None => None
    else if StartsWith(cmd, ProfilePrefix) then Some(ActivateProfile(cmd[8..]))
    else None
  }

  /** No command carries two of the prefixes, so the order they are tried in never matters. */
  lemma PrefixesExclusive(cmd: string)
    ensures !(StartsWith(cmd, SourcePrefix) && StartsWith(cmd, PresetPrefix))
    ensures !(StartsWith(cmd, SourcePrefix) && StartsWith(cmd, ProfilePrefix))
    ensures !(StartsWith(cmd, PresetPrefix) && StartsWith(cmd, ProfilePrefix))
  {
    if StartsWith(cmd, PresetPrefix) {
      assert cmd[0] == 'p' && cmd[2] == 'e';
    }
    if StartsWith(cmd, ProfilePrefix) {
      assert cmd[0] == 'p' && cmd[2] == 'o';
    }
  }

  /**
   * What a dispatched call means: it is a source, preset or profile call, the
   * command is its prefix followed by the argument, and a command asks for nothing
   * exactly when it has none of the prefixes or is a preset int() rejects.
   */
  lemma DispatchMeaning(cmd: string)
    ensures var r := Dispatch(cmd);
      && (r.Some? ==> r.value.SetSource? || r.value.ActivatePreset? || r.value.ActivateProfile?)
      && (r.Some? && r.value.SetSource? <==> StartsWith(cmd, SourcePrefix))
      && (r.Some? && r.value.SetSource? ==> cmd == SourcePrefix + r.value.name)
      && (r.Some? && r.value.ActivatePreset? ==>
            StartsWith(cmd, PresetPrefix) && ParseInt(cmd[|PresetPrefix|..]) == Some(r.value.number))
      && (r.Some? && r.value.ActivateProfile? ==> cmd == ProfilePrefix + r.value.name)
      && (r.None? <==>
            (!StartsWith(cmd, SourcePrefix) && !StartsWith(cmd, ProfilePrefix) &&
             (StartsWith(cmd, PresetPrefix) ==> ParseInt(cmd[|PresetPrefix|..]).None?)))
  {
    PrefixesExclusive(cmd);
    if StartsWith(cmd, SourcePrefix) {
      assert cmd == SourcePrefix + cmd[7..];
    } else if StartsWith(cmd, ProfilePrefix) {
      assert cmd == ProfilePrefix + cmd[8..];
    }
  }

  lemma StartsWithPrefix(p: string, x: string)
    ensures StartsWith(p + x, p) && (p + x)[|p|..] == x
  {
    assert (p + x)[..|p|] == p;
  }

  /** "source_X" selects source X, whatever X is: spaces, another prefix or nothing at all. */
  lemma DispatchSource(x: string)
    ensures Dispatch(SourcePrefix + x) == Some(SetSource(x))
  {
    StartsWithPrefix(SourcePrefix, x);
  }

  /** "profile_X" activates profile X. */
  lemma DispatchProfile(x: string)
    ensures Dispatch(ProfilePrefix + x) == Some(ActivateProfile(x))
  {
    StartsWithPrefix(ProfilePrefix, x);
    PrefixesExclusive(ProfilePrefix + x);
  }

  /**
   * "preset_N" activates preset N for every integer N as str() writes it, with no
   * range check, as long as int() takes its digits: one of more than MaxStrDigits
   * digits asks for nothing.
   */
  lemma DispatchPreset(n: int)
    ensures Dispatch(PresetPrefix + IntToDecimal(n)) ==
      if DecimalDigits(n) <= MaxStrDigits then Some(ActivatePreset(n)) else None
  {
    var cmd := PresetPrefix + IntToDecimal(n);
    StartsWithPrefix(PresetPrefix, IntToDecimal(n));
    PrefixesExclusive(cmd);
    ParseIntRoundTrip(n);
  }

  lemma StripFive()
    ensures IntStrip(" 5 ") == "5"
  {
    assert IsIntSpace(' ') && !IsIntSpace('5');
    assert " 5 "[1..] == "5 ";
    assert StripLeft("5 ", IsIntSpace) == "5 ";
    assert "5 "[..1] == "5";
    assert StripRight("5", IsIntSpace) == "5";
  }

  lemma ParseFive()
    ensures ParseInt(" 5 ") == Some(5)
  {
    assert ParseSigned("5") == Some(5) by {
      ParseSignedDigits("5");
      assert "5"[..0] == "";
    }
    StripFive();
  }

  lemma StripLetters()
    ensures IntStrip("abc") == "abc"
  {
    assert !IsIntSpace('a');
    assert StripLeft("abc", IsIntSpace) == "abc";
    assert "abc"[2] == 'c';
  }

  /** A preset command asks for the preset int() reads from the rest, or for nothing. */
  lemma DispatchPresetText(x: string)
    ensures Dispatch(PresetPrefix + x) == if ParseInt(x).Some? then Some(ActivatePreset(ParseInt(x).value)) else None
  {
    StartsWithPrefix(PresetPrefix, x);
    PrefixesExclusive(PresetPrefix + x);
  }

  /** int() ignores the whitespace around the number. */
  lemma DispatchPresetBlank()
    ensures Dispatch("preset_ 5 ") == Some(ActivatePreset(5))
  {
    assert "preset_ 5 " == PresetPrefix + " 5 ";
    DispatchPresetText(" 5 ");
    ParseFive();
  }

  /** A preset number longer than int() converts is skipped, like any other bad number. */
  lemma DispatchPresetTooLong(d: string)
    requires AllDigits(d) && |d| > MaxStrDigits
    ensures Dispatch(PresetPrefix + d) == None
  {
    DispatchPresetText(d);
    DigitCountOfDigits(d);
  }

  /** A preset that is not a number is skipped. */
  lemma DispatchPresetNotANumber()
    ensures Dispatch("preset_abc") == None
    ensures Dispatch("preset_") == None
  {
    assert "preset_abc" == PresetPrefix + "abc";
    DispatchPresetText("abc");
    StripLetters();
    assert !GroupChar("abc", 0);
    assert ParseIntLiteral("abc").None?;
    assert "preset_" == PresetPrefix + "";
    DispatchPresetText("");
    assert ParseIntLiteral("").None?;
  }

  /** A separator before the number makes int() raise, so the command is skipped. */
  lemma DispatchPresetSeparator()
    ensures Dispatch("preset_\U{1C}5") == None
  {
    assert "preset_\U{1C}5" == PresetPrefix + "\U{1C}5";
    DispatchPresetText("\U{1C}5");
    ParseIntRefusesSeparator("\U{1C}5", 0);
  }

  /** A command with none of the three prefixes causes no device call. */
  lemma DispatchOther(cmd: string)
    requires !StartsWith(cmd, SourcePrefix) && !StartsWith(cmd, PresetPrefix) && !StartsWith(cmd, ProfilePrefix)
    ensures Dispatch(cmd) == None
  {
  }

  /** The device calls a list of commands asks for, in the order of the list. */
  function Planned(cmds: seq<string>): (r: seq<RemoteCall>)
    ensures |r| <= |cmds|
    decreases |cmds|
  {
    if |cmds| == 0 then []
    else Planned(cmds[..|cmds| - 1]) + Calls(Dispatch(cmds[|cmds| - 1]))
  }

  function Calls(c: Option<RemoteCall>): (r: seq<RemoteCall>)
    ensures |r| <= 1
  {
    if c.Some? then [c.value] else []
  }

  /** Splitting the command list splits its device calls the same way. */
  lemma {:induction false} PlannedAppend(a: seq<string>, b: seq<string>)
    ensures Planned(a + b) == Planned(a) + Planned(b)
    decreases |b|
  {
    if |b| == 0 {
      assert a + b == a;
    } else {
      var b' := b[..|b| - 1];
      PlannedAppend(a, b');
      assert (a + b)[..|a + b| - 1] == a + b';
      assert (a + b)[|a + b| - 1] == b[|b| - 1];
    }
  }

  /** Every command is dispatched on its own: one call when it asks for one, in input order. */
  lemma PlannedOne(cmds: seq<string>, cmd: string)
    ensures Planned(cmds + [cmd]) == Planned(cmds) + Calls(Dispatch(cmd))
  {
    assert (cmds + [cmd])[..|cmds|] == cmds;
  }

  lemma PlannedPrefix(cmds: seq<string>, n: nat)
    requires n <= |cmds|
    ensures |Planned(cmds[..n])| <= |Planned(cmds)|
    ensures Planned(cmds[..n]) == Planned(cmds)[..|Planned(cmds[..n])|]
  {
    PlannedAppend(cmds[..n], cmds[n..]);
    assert cmds[..n] + cmds[n..] == cmds;
  }

  /**
   * An exception from a device call that async_send_command lets go on: the
   * `except (ValueError, IndexError)` around a preset covers the device call as
   * well as int().
   */
  predicate Tolerated(c: RemoteCall, outcome: Option<Exc>): (b: bool)
    ensures outcome.Some? && !c.ActivatePreset? ==> !b
    ensures outcome.Some? && outcome.value != ValueError && outcome.value != IndexError ==> !b
  {
    outcome.None? || (c.ActivatePreset? && (outcome.value == ValueError || outcome.value == IndexError))
  }

  /** The calls of one more command extend the calls of the commands before it. */
  lemma PlannedStep(cmds: seq<string>, i: nat)
    requires i < |cmds|
    ensures Planned(cmds[..i + 1]) == Planned(cmds[..i]) + Calls(Dispatch(cmds[i]))
  {
    PlannedOne(cmds[..i], cmds[i]);
    assert cmds[..i + 1] == cmds[..i] + [cmds[i]];
  }

  /**
   * When the call of command `i` raises an exception that is not tolerated, the
   * calls made so far are a prefix of the planned calls ending with that call.
   */
  lemma StopsAt(cmds: seq<string>, i: nat, before: seq<RemoteCall>, c: RemoteCall, dev: Device)
    requires i < |cmds| && before == Planned(cmds[..i]) && Dispatch(cmds[i]) == Some(c)
    requires forall k :: 0 <= k < |before| ==> Tolerated(before[k], dev(k))
    requires !Tolerated(c, dev(|before|))
    ensures var p := Planned(cmds); var calls := before + [c];
      && 0 < |calls| <= |p| && calls == p[..|calls|]
      && !Tolerated(calls[|calls| - 1], dev(|calls| - 1))
      && (forall k :: 0 <= k < |calls| - 1 ==> Tolerated(p[k], dev(k)))
      && !(forall k :: 0 <= k < |p| ==> Tolerated(p[k], dev(k)))
  {
    PlannedStep(cmds, i);
    PlannedPrefix(cmds, i + 1);
    var p := Planned(cmds);
    var calls := before + [c];
    forall k | 0 <= k < |before| ensures Tolerated(p[k], dev(k)) {
      assert calls[k] == before[k];
      assert p[k] == calls[k];
    }
    assert p[|before|] == calls[|before|] == c;
  }

  /** One more tolerated call keeps every call so far tolerated. */
  lemma ToleratedExtends(calls: seq<RemoteCall>, c: RemoteCall, dev: Device)
    requires forall k :: 0 <= k < |calls| ==> Tolerated(calls[k], dev(k))
    requires Tolerated(c, dev(|calls|))
    ensures forall k :: 0 <= k < |calls| + 1 ==> Tolerated((calls + [c])[k], dev(k))
  {
  }

  /**
   * async_send_command: the commands' device calls in input order, then one
   * refresh request after the whole list. The first call that raises an exception
   * other than a tolerated one ends the command there, with that exception and
   * without the refresh.
   */
  method SendCommand(cmds: seq<string>, dev: Device) returns (calls: seq<RemoteCall>, raised: Option<Exc>)
    ensures var p := Planned(cmds);
      && (raised.None? <==> forall k :: 0 <= k < |p| ==> Tolerated(p[k], dev(k)))
      && (raised.None? ==> calls == p + [RequestRefresh])
      && (raised.Some? ==>
            && 0 < |calls| <= |p| && calls == p[..|calls|]
            && raised == dev(|calls| - 1) && !Tolerated(calls[|calls| - 1], raised)
            && forall k :: 0 <= k < |calls| - 1 ==> Tolerated(p[k], dev(k)))
  {
    calls := [];
    for i := 0 to |cmds|
      invariant calls == Planned(cmds[..i])
      invariant forall k :: 0 <= k < |calls| ==> Tolerated(calls[k], dev(k))
    {
      PlannedStep(cmds, i);
      var c := Dispatch(cmds[i]);
      if c.Some? {
        var outcome := dev(|calls|);
        if !Tolerated(c.value, outcome) {
          StopsAt(cmds, i, calls, c.value, dev);
          return calls + [c.value], outcome;
        }
        ToleratedExtends(calls, c.value, dev);
        calls := calls + [c.value];
      }
    }
    assert cmds[..|cmds|] == cmds;
    calls := calls + [RequestRefresh];
    raised := None;
  }

  /**
   * is_on: the coordinator's state is one of POWER_STATES_ACTIVE, "on" or "ready";
   * a missing state is not on.
   */
  function IsOn(data: Coordinator.Data): (r: bool)
    ensures r <==> Coordinator.State in data && data[Coordinator.State].Val?
                   && Coordinator.IsActive(data[Coordinator.State].j)
  {
    Coordinator.State in data &&
    data[Coordinator.State] in [Coordinator.Val(JStr("on")), Coordinator.Val(JStr("ready"))]
  }

  /** A projector warming up or cooling down is not on. */
  lemma ConditioningIsNotOn(data: Coordinator.Data, s: string)
    requires s == "conditioning" || s == "deconditioning"
    requires Coordinator.State in data && data[Coordinator.State] == Coordinator.Val(JStr(s))
    ensures !IsOn(data)
  {
  }

  /**
   * async_turn_on and async_turn_off: one power call, then a refresh request
   * when the call returned; an exception from the power call propagates.
   */
  function Switch(on: bool, outcome: Option<Exc>): (r: (seq<RemoteCall>, Option<Exc>))
    ensures |r.0| >= 1 && r.0[0] == (if on then PowerOn else PowerOff)
    ensures r.1 == outcome
    ensures r.0[1..] == (if outcome.None? then [RequestRefresh] else [])
  {
    var power := if on then PowerOn else PowerOff;
    if outcome.None? then ([power, RequestRefresh], None) else ([power], outcome)
  }

  /** Switching makes exactly one power call, of the requested direction, and no other device call. */
  lemma {:induction false} SwitchCallsPowerOnce(on: bool, outcome: Option<Exc>)
    ensures var calls := Switch(on, outcome).0;
      forall k :: 0 <= k < |calls| ==>
        (calls[k].PowerOn? || calls[k].PowerOff? <==> k == 0) && (calls[k].PowerOn? <==> on && k == 0)
  {
    var calls := Switch(on, outcome).0;
    assert calls[1..] == [] || calls[1..] == [RequestRefresh];
    forall k | 0 <= k < |calls|
      ensures (calls[k].PowerOn? || calls[k].PowerOff? <==> k == 0) && (calls[k].PowerOn? <==> on && k == 0)
    {
      if k > 0 {
        assert calls[k] == calls[1..][k - 1];
      }
    }
  }
}
