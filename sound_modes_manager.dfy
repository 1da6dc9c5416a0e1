/**
 * SoundModesManager: `changeSoundMode` with its permission guard, over the
 * shared transition, and the selectors the screen uses.
 */
module SoundModesManager {
  import opened Options
  import opened AndroidOs
  import opened RingerModes
  import opened ZenRules
  import opened ModeChange

  /**
   * The intent passed to `onPermissionRequired`: MainActivity in a new,
   * cleared task, with the permission-toast extra set to true.
   */
  const PermissionIntent: Intent := Intent({NewTask, ClearTask}, true)

  /**
   * `changeSoundMode(onPermissionRequired)`; the callback's call is logged.
   * Without permission only the log changes.
   */
  function AfterChangeSoundMode(s: OsState): (t: OsState)
    ensures !s.permission ==> t == s.(log := t.log)
    ensures t.permission == s.permission
  {
    if !s.permission then AfterUiCall(s, PermissionRequired(PermissionIntent))
    else AfterTransition(s, s.ringerMode, NextMode(s.ringerMode, {}))
  }

  method ChangeSoundMode(os: Device)
    requires os.Valid()
    modifies os
    ensures os.Valid()
    ensures os.State() == AfterChangeSoundMode(old(os.State()))
  {
    if !os.permission {
      os.UiCall(PermissionRequired(PermissionIntent));
      return;
    }
    var currentMode := os.ringerMode;
    var nextMode := NextModeScan(currentMode, {});
    ApplyTransition(os, currentMode, nextMode);
  }

  /**
   * Without permission the callback is invoked exactly once, with the
   * permission-toast extra set, and the ringer mode, the rule table, the
   * rule states and the vibrations are left alone.
   */
  lemma WithoutPermission(s: OsState)
    requires !s.permission
    ensures var t := AfterChangeSoundMode(s);
      |s.log| <= |t.log| && CallsSince(s, t) == [PermissionRequired(PermissionIntent)] &&
      PermissionIntent.permissionToast &&
      t.ringerMode == s.ringerMode && t.rules == s.rules && t.nextId == s.nextId &&
      t.ruleStates == s.ruleStates && t.vibrations == s.vibrations
  {
  }

  /** Lookups of the app's rule agree on states with the same rule table. */
  lemma LookupDependsOnTable(a: OsState, b: OsState)
    requires a.rules == b.rules && a.nextId == b.nextId && a.acceptsNewRules == b.acceptsNewRules
    ensures SilentRuleId(a) == SilentRuleId(b)
  {
    assert FirstRuleNamed(a, SilentModeRuleName) == FirstRuleNamed(b, SilentModeRuleName);
  }

  /**
   * With permission, each press moves one step along the cycle: from NORMAL
   * the phone vibrates once and the ringer is set to VIBRATE, leaving the rule
   * alone; from VIBRATE the rule is turned on instead of setting SILENT; from
   * SILENT the rule is turned off and the ringer set to NORMAL; any other
   * value is replaced by NORMAL.
   */
  lemma WithPermission(s: OsState)
    requires Consistent(s) && s.permission
    ensures var t := AfterChangeSoundMode(s);
      Consistent(t) &&
      t.vibrations == s.vibrations + (if s.ringerMode == NORMAL then 1 else 0) &&
      (s.ringerMode == NORMAL ==>
        t.ringerMode == VIBRATE && t.rules == s.rules && t.ruleStates == s.ruleStates) &&
      (s.ringerMode == VIBRATE ==>
        t.ringerMode == VIBRATE &&
        (SilentRuleId(s).Some? ==> t.ruleStates == s.ruleStates[SilentRuleId(s).value := true])) &&
      (s.ringerMode == SILENT ==>
        t.ringerMode == NORMAL &&
        (SilentRuleId(s).Some? ==> t.ruleStates == s.ruleStates[SilentRuleId(s).value := false])) &&
      (s.ringerMode !in AllModes ==>
        t.ringerMode == NORMAL && t.rules == s.rules && t.ruleStates == s.ruleStates)
  {
    var current := s.ringerMode;
    NextModeDefaultCycle();
    if current !in AllModes { NextModeFromUnknownIsNormal(current); }
    var next := NextMode(current, {});
    TransitionShape(s, current, next);
    TransitionVibrates(s, current, next);
    if next == SILENT {
      EnteringSilent(s, current);
    } else {
      EnteringOtherMode(s, current, next);
      if current == SILENT && SilentRuleId(s).Some? {
        LeavingSilentDeactivates(s, next);
      }
    }
  }

  /**
   * Three presses from NORMAL with permission: VIBRATE with one pulse and the
   * rule untouched; then the rule becomes active; once the OS reports SILENT
   * (the phone is silenced by the active rule), a third press returns to
   * NORMAL and the rule becomes inactive.
   */
  lemma ThreePresses(s: OsState)
    requires Consistent(s) && s.permission && s.ringerMode == NORMAL && SilentRuleId(s).Some?
    ensures var id := SilentRuleId(s).value;
      var first := AfterChangeSoundMode(s);
      var second := AfterChangeSoundMode(first);
      var third := AfterChangeSoundMode(AfterExternalRingerChange(second, SILENT));
      first.ringerMode == VIBRATE && first.vibrations == s.vibrations + 1 &&
      first.rules == s.rules && first.ruleStates == s.ruleStates &&
      id in second.ruleStates && second.ruleStates[id] &&
      third.ringerMode == NORMAL && id in third.ruleStates && !third.ruleStates[id]
  {
    var id := SilentRuleId(s).value;
    var first := AfterChangeSoundMode(s);
    WithPermission(s);
    LookupDependsOnTable(s, first);
    assert first.permission && first.acceptsNewRules == s.acceptsNewRules by {
      TransitionShape(s, NORMAL, VIBRATE);
    }
    WithPermission(first);
    var second := AfterChangeSoundMode(first);
    TransitionShape(first, VIBRATE, SILENT);
    ToggleZenModeShape(first, SilentModeRuleName, true);
    assert second == AfterToggleZenMode(first, SilentModeRuleName, true);
    ObtainIdempotent(first, SilentModeRuleName);
    var o := ObtainZenRule(first, SilentModeRuleName);
    assert second.rules == o.state.rules && second.nextId == o.state.nextId;
    LookupDependsOnTable(o.state, second);
    var silenced := AfterExternalRingerChange(second, SILENT);
    LookupDependsOnTable(second, silenced);
    WithPermission(silenced);
  }
}
