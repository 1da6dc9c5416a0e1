/**
 * SoundModesWidget, the classic home-screen widget: `changeSoundMode`
 * with a guard that starts the permission screen, and the `onReceive`
 * dispatch of the widget's tap.
 */
module SoundModesWidget {
  import opened AndroidOs
  import opened RingerModes
  import opened ModeChange
  import Manager = SoundModesManager

  const WidgetToggleMode: string := "com.helsing.soundmodes.WIDGET_TOGGLE_MODE"

  /** The intent started without permission: MainActivity in a new task, permission-toast extra set. */
  const PermissionIntent: Intent := Intent({NewTask}, true)

  /** `changeSoundMode(context)`. Without permission only the log changes. */
  function AfterChangeSoundMode(s: OsState): (t: OsState)
    ensures !s.permission ==> t == s.(log := t.log)
    ensures t.permission == s.permission
  {
    if !s.permission then AfterUiCall(s, ActivityStarted(PermissionIntent))
    else AfterTransition(s, s.ringerMode, NextMode(s.ringerMode, {}))
  }

  method ChangeSoundMode(os: Device)
    requires os.Valid()
    modifies os
    ensures os.Valid()
    ensures os.State() == AfterChangeSoundMode(old(os.State()))
  {
    if !os.permission {
      os.UiCall(ActivityStarted(PermissionIntent));
      return;
    }
    var currentMode := os.ringerMode;
    var nextMode := NextModeScan(currentMode, {});
    ApplyTransition(os, currentMode, nextMode);
  }

  /**
   * Without permission exactly one activity is started, carrying the
   * permission-toast extra, and nothing else happens. With permission the
   * widget does what the manager does; the two differ only in the intent
   * used to ask for permission (the widget does not clear the task).
   */
  lemma AgreesWithManager(s: OsState)
    ensures var t := AfterChangeSoundMode(s);
      (!s.permission ==>
        |s.log| <= |t.log| && CallsSince(s, t) == [ActivityStarted(PermissionIntent)] &&
        PermissionIntent.permissionToast && t == s.(log := t.log)) &&
      (s.permission ==> t == Manager.AfterChangeSoundMode(s)) &&
      PermissionIntent.flags == Manager.PermissionIntent.flags - {ClearTask}
  {
  }

  /**
   * `onReceive(context, intent)`: any action other than the widget's own
   * leaves the OS untouched; that action always calls into the OS and never
   * changes the permission.
   */
  function AfterReceive(s: OsState, action: string): (t: OsState)
    requires Consistent(s)
    ensures action != WidgetToggleMode ==> t == s
    ensures action == WidgetToggleMode ==> |t.log| > |s.log| && t.permission == s.permission
  {
    if action != WidgetToggleMode then s
    else if !s.permission then AfterChangeSoundMode(s)
    else
      var next := NextMode(s.ringerMode, {});
      NextModeDefaultMoves(s.ringerMode);
      TransitionShape(s, s.ringerMode, next);
      TransitionActs(s, s.ringerMode, next);
      AfterChangeSoundMode(s)
  }

  method OnReceive(os: Device, action: string)
    requires os.Valid()
    modifies os
    ensures os.Valid()
    ensures os.State() == AfterReceive(old(os.State()), action)
  {
    if action == WidgetToggleMode {
      ChangeSoundMode(os);
    }
  }
}
