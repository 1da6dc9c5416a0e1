/**
 * The `if (nextMode != currentMode) { ... }` block that ends
 * `changeSoundMode` in SoundModesManager, SoundModesService and
 * SoundModesWidget alike: vibrate when entering VIBRATE, turn the rule off
 * when leaving SILENT, then turn the rule on (SILENT) or set the ringer mode.
 */
module ModeChange {
  import opened Options
  import opened AndroidOs
  import opened RingerModes
  import opened ZenRules

  /** After the haptic pulse, which happens only when entering VIBRATE. */
  function Pulsed(s: OsState, next: int): OsState
  {
    if next == VIBRATE then AfterVibrate(s) else s
  }

  /** After turning the rule off, which happens only when leaving SILENT. */
  function Released(s: OsState, current: int, next: int): OsState
  {
    if current == SILENT then AfterToggleZenMode(Pulsed(s, next), SilentModeRuleName, false)
    else Pulsed(s, next)
  }

  /**
   * The whole block. SILENT is never set as the ringer mode: entering it
   * leaves the ringer mode as it was, and any other new mode is set.
   */
  function AfterTransition(s: OsState, current: int, next: int): (t: OsState)
    ensures next == current ==> t == s
    ensures next != current && next != SILENT ==> t.ringerMode == next
    ensures next == SILENT ==> t.ringerMode == s.ringerMode
    ensures t.permission == s.permission && t.acceptsNewRules == s.acceptsNewRules
  {
    if next == current then s
    else if next == SILENT then AfterToggleZenMode(Released(s, current, next), SilentModeRuleName, true)
    else AfterSetRingerMode(Released(s, current, next), next)
  }

  /** The calls of each part of the transition. */
  function PulseCalls(next: int): seq<Event>
  {
    if next == VIBRATE then [Vibrated] else []
  }

  function ReleaseCalls(s: OsState, current: int, next: int): seq<Event>
  {
    if current == SILENT then ZenCalls(Pulsed(s, next), SilentModeRuleName, false) else []
  }

  function FinalCalls(s: OsState, current: int, next: int): seq<Event>
  {
    if next == SILENT then ZenCalls(Released(s, current, next), SilentModeRuleName, true)
    else [RingerModeSet(next)]
  }

  /** The calls of the transition, in order. */
  function TransitionCalls(s: OsState, current: int, next: int): seq<Event>
  {
    if next == current then []
    else PulseCalls(next) + ReleaseCalls(s, current, next) + FinalCalls(s, current, next)
  }

  method ApplyTransition(os: Device, current: int, next: int)
    requires os.Valid()
    modifies os
    ensures os.Valid()
    ensures os.State() == AfterTransition(old(os.State()), current, next)
  {
    if next != current {
      if next == VIBRATE {
        os.Vibrate();
      }
      if current == SILENT {
        ToggleZenMode(os, SilentModeRuleName, false);
      }
      if next == SILENT {
        ToggleZenMode(os, SilentModeRuleName, true);
      } else {
        os.SetRingerMode(next);
      }
    }
  }

  /** The id of the app's rule that a lookup in state `s` obtains. */
  function SilentRuleId(s: OsState): Option<RuleId>
  {
    ObtainZenRule(s, SilentModeRuleName).id
  }

  /** Vibrating does not change what the rule lookup finds or creates. */
  lemma VibrateKeepsLookup(s: OsState, name: string)
    ensures ObtainZenRule(AfterVibrate(s), name).id == ObtainZenRule(s, name).id
    ensures ZenCalls(AfterVibrate(s), name, false) == ZenCalls(s, name, false)
    ensures ZenCalls(AfterVibrate(s), name, true) == ZenCalls(s, name, true)
  {
    assert FirstRuleNamed(AfterVibrate(s), name) == FirstRuleNamed(s, name);
  }

  lemma PulseStep(s: OsState, next: int)
    requires Consistent(s)
    ensures var p := Pulsed(s, next);
      Consistent(p) && p.log == s.log + PulseCalls(next) &&
      p == s.(vibrations := p.vibrations, log := p.log) &&
      p.vibrations == s.vibrations + (if next == VIBRATE then 1 else 0)
  {
    if next == VIBRATE { VibrateKeepsConsistent(s); }
  }

  lemma ReleaseStep(s: OsState, current: int, next: int)
    requires Consistent(s)
    ensures var r := Released(s, current, next);
      var p := Pulsed(s, next);
      Consistent(r) && r.log == p.log + ReleaseCalls(s, current, next) &&
      r.ringerMode == s.ringerMode && r.permission == s.permission &&
      r.acceptsNewRules == s.acceptsNewRules && r.vibrations == p.vibrations
  {
    PulseStep(s, next);
    if current == SILENT { ToggleZenModeShape(Pulsed(s, next), SilentModeRuleName, false); }
  }

  lemma FinalStep(s: OsState, current: int, next: int)
    requires Consistent(s) && next != current
    ensures var r := Released(s, current, next);
      var t := AfterTransition(s, current, next);
      Consistent(t) && t.log == r.log + FinalCalls(s, current, next) &&
      t.permission == s.permission && t.acceptsNewRules == s.acceptsNewRules &&
      t.vibrations == r.vibrations
  {
    ReleaseStep(s, current, next);
    var r := Released(s, current, next);
    if next == SILENT {
      ToggleZenModeShape(r, SilentModeRuleName, true);
    } else {
      SetRingerModeKeepsConsistent(r, next);
    }
  }

  /** The transition appends its calls to the log and keeps the state consistent. */
  lemma TransitionShape(s: OsState, current: int, next: int)
    requires Consistent(s)
    ensures var t := AfterTransition(s, current, next);
      Consistent(t) && t.log == s.log + TransitionCalls(s, current, next) &&
      t.permission == s.permission && t.acceptsNewRules == s.acceptsNewRules
  {
    if next != current {
      PulseStep(s, next);
      ReleaseStep(s, current, next);
      FinalStep(s, current, next);
      var pulse, release, final := PulseCalls(next), ReleaseCalls(s, current, next), FinalCalls(s, current, next);
      assert s.log + pulse + release + final == s.log + (pulse + release + final);
    }
  }

  /** A transition to a different mode always makes at least one call. */
  lemma TransitionActs(s: OsState, current: int, next: int)
    requires next != current
    ensures |TransitionCalls(s, current, next)| > 0
  {
    if next == SILENT {
      var r := Released(s, current, next);
      var o := ObtainZenRule(r, SilentModeRuleName);
      if o.id.Some? {
        assert |ZenWriteEvents(o.id.value, true)| > 0;
      } else {
        assert FirstRuleNamed(r, SilentModeRuleName).None?;
      }
    }
  }

  /** When the next mode equals the current one nothing happens at all. */
  lemma TransitionToSameMode(s: OsState, mode: int)
    ensures AfterTransition(s, mode, mode) == s
    ensures TransitionCalls(s, mode, mode) == []
  {
  }

  /** Exactly one vibration happens, and only when the mode changes to VIBRATE. */
  lemma TransitionVibrates(s: OsState, current: int, next: int)
    requires Consistent(s)
    ensures var t := AfterTransition(s, current, next);
      t.vibrations == s.vibrations + (if next != current && next == VIBRATE then 1 else 0) &&
      VibrationCount(TransitionCalls(s, current, next)) == t.vibrations - s.vibrations
  {
    TransitionShape(s, current, next);
    VibrationCountAppend(s.log, TransitionCalls(s, current, next));
    if next != current {
      PulseStep(s, next);
      ReleaseStep(s, current, next);
      FinalStep(s, current, next);
    }
  }

  /**
   * Entering SILENT never calls `setRingerMode`: the ringer mode is left as
   * it was and the app's rule ends with FALSE then TRUE written to it, so its
   * last state is TRUE.
   */
  lemma EnteringSilent(s: OsState, current: int)
    requires Consistent(s) && current != SILENT
    ensures var t := AfterTransition(s, current, SILENT);
      var calls := TransitionCalls(s, current, SILENT);
      t.ringerMode == s.ringerMode && RingerModesSet(calls) == [] &&
      (SilentRuleId(s).Some? ==>
        var id := SilentRuleId(s).value;
        t.ruleStates == s.ruleStates[id := true] &&
        ConditionsWritten(calls, id) == [Condition(EmptySummary, false), Condition(ActiveSummary, true)] &&
        |calls| >= 2 &&
        calls[|calls| - 2..] == [ZenRuleStateSet(id, Condition(EmptySummary, false)),
                                 ZenRuleStateSet(id, Condition(ActiveSummary, true))]) &&
      (SilentRuleId(s).None? ==> t.ruleStates == s.ruleStates)
  {
    var t := AfterTransition(s, current, SILENT);
    assert Released(s, current, SILENT) == s;
    ToggleZenModeShape(s, SilentModeRuleName, true);
    var calls := ZenCalls(s, SilentModeRuleName, true);
    assert TransitionCalls(s, current, SILENT) == calls;
    assert CallsSince(s, t) == calls;
    ToggleZenModeWrites(s, SilentModeRuleName, true, 0);
    if SilentRuleId(s).Some? {
      ToggleZenModeWrites(s, SilentModeRuleName, true, SilentRuleId(s).value);
      ZenCallsEnd(s, SilentModeRuleName, true);
    }
  }

  /**
   * Entering any mode other than SILENT calls `setRingerMode(next)` exactly
   * once, as the last call, and the ringer mode becomes `next`.
   */
  lemma EnteringOtherMode(s: OsState, current: int, next: int)
    requires next != SILENT && next != current
    ensures var t := AfterTransition(s, current, next);
      var calls := TransitionCalls(s, current, next);
      t.ringerMode == next && RingerModesSet(calls) == [next] &&
      calls != [] && calls[|calls| - 1] == RingerModeSet(next)
  {
    var pulse := PulseCalls(next);
    var release := ReleaseCalls(s, current, next);
    if current == SILENT {
      ZenCallsSetNoMode(Pulsed(s, next), SilentModeRuleName, false);
    }
    RingerModesSetAppend(pulse, release);
    RingerModesSetAppend(pulse + release, [RingerModeSet(next)]);
  }

  /** Turning the rule off on leaving SILENT ends with one FALSE write to the rule. */
  lemma ReleaseWrites(s: OsState, next: int)
    requires Consistent(s) && SilentRuleId(s).Some?
    ensures var id := SilentRuleId(s).value;
      var release := ReleaseCalls(s, SILENT, next);
      release != [] && release[|release| - 1] == ZenRuleStateSet(id, Condition(InactiveSummary, false)) &&
      ConditionsWritten(release, id) == [Condition(InactiveSummary, false)] &&
      Released(s, SILENT, next).ruleStates == s.ruleStates[id := false]
  {
    var id := SilentRuleId(s).value;
    var p := Pulsed(s, next);
    PulseStep(s, next);
    VibrateKeepsLookup(s, SilentModeRuleName);
    assert SilentRuleId(p) == Some(id);
    ToggleZenModeShape(p, SilentModeRuleName, false);
    ToggleZenModeWrites(p, SilentModeRuleName, false, id);
    var release := ReleaseCalls(s, SILENT, next);
    assert CallsSince(p, Released(s, SILENT, next)) == release;
    ZenCallsEnd(p, SilentModeRuleName, false);
  }

  /**
   * Leaving SILENT writes FALSE to the app's rule, once, and that write
   * comes just before the `setRingerMode` call.
   */
  lemma LeavingSilent(s: OsState, next: int)
    requires Consistent(s) && next != SILENT && SilentRuleId(s).Some?
    ensures var calls := TransitionCalls(s, SILENT, next);
      var id := SilentRuleId(s).value;
      ConditionsWritten(calls, id) == [Condition(InactiveSummary, false)] &&
      |calls| >= 2 &&
      calls[|calls| - 2..] == [ZenRuleStateSet(id, Condition(InactiveSummary, false)), RingerModeSet(next)]
  {
    ReleaseWrites(s, next);
    var pulse := PulseCalls(next);
    assert ConditionsWritten(pulse, SilentRuleId(s).value) == [];
    assert TransitionCalls(s, SILENT, next) == pulse + ReleaseCalls(s, SILENT, next) + [RingerModeSet(next)];
    WriteThenSet(pulse, ReleaseCalls(s, SILENT, next), next, SilentRuleId(s).value, Condition(InactiveSummary, false));
  }

  /** A log made of calls that do not write to `id`, then calls ending with one write of `c`, then `setRingerMode`. */
  lemma WriteThenSet(before: seq<Event>, writes: seq<Event>, mode: int, id: RuleId, c: Condition)
    requires ConditionsWritten(before, id) == []
    requires writes != [] && writes[|writes| - 1] == ZenRuleStateSet(id, c)
    requires ConditionsWritten(writes, id) == [c]
    ensures var calls := before + writes + [RingerModeSet(mode)];
      ConditionsWritten(calls, id) == [c] &&
      |calls| >= 2 && calls[|calls| - 2..] == [ZenRuleStateSet(id, c), RingerModeSet(mode)]
  {
    ConditionsWrittenAppend(before, writes, id);
    SetterWritesNothing(before + writes, mode, id);
    LastOfAppend(before, writes);
    LastTwo(before + writes, RingerModeSet(mode));
  }

  lemma SetterWritesNothing(calls: seq<Event>, mode: int, id: RuleId)
    ensures ConditionsWritten(calls + [RingerModeSet(mode)], id) == ConditionsWritten(calls, id)
  {
    assert ConditionsWritten([RingerModeSet(mode)], id) == [];
    ConditionsWrittenAppend(calls, [RingerModeSet(mode)], id);
  }

  lemma LastOfAppend(a: seq<Event>, b: seq<Event>)
    requires b != []
    ensures (a + b)[|a + b| - 1] == b[|b| - 1]
  {
  }

  /** After leaving SILENT the app's rule is inactive. */
  lemma LeavingSilentDeactivates(s: OsState, next: int)
    requires Consistent(s) && next != SILENT && SilentRuleId(s).Some?
    ensures AfterTransition(s, SILENT, next).ruleStates == s.ruleStates[SilentRuleId(s).value := false]
  {
    ReleaseWrites(s, next);
    var r := Released(s, SILENT, next);
    assert AfterTransition(s, SILENT, next) == AfterSetRingerMode(r, next);
  }
}
