/**
 * The ringer-mode cycle shared by SoundModesManager, SoundModesService and
 * SoundModesWidget: the AudioManager constants, `getNextMode` and the
 * icon and label selectors.
 */
module RingerModes {

  /** AudioManager.RINGER_MODE_SILENT, RINGER_MODE_VIBRATE, RINGER_MODE_NORMAL. */
  const SILENT: int := 0
  const VIBRATE: int := 1
  const NORMAL: int := 2

  /** The fixed list `allModes` that `getNextMode` rotates through. */
  const AllModes: seq<int> := [NORMAL, VIBRATE, SILENT]

  /** Kotlin's `%` on Int: the remainder truncates toward zero. */
  function KotlinRem(a: int, b: int): (r: int)
    requires b > 0
    ensures a >= 0 ==> 0 <= r < b && r == a % b
    ensures a < 0 ==> -b < r <= 0
  {
    if a >= 0 then a % b else -((-a) % b)
  }

  /** Kotlin's `List.indexOf`: the first position holding `x`, or -1. */
  function IndexOf(s: seq<int>, x: int): (r: int)
    ensures -1 <= r < |s|
    ensures r == -1 <==> x !in s
    ensures r >= 0 ==> s[r] == x && forall j :: 0 <= j < r ==> s[j] != x
  {
    if s == [] then -1
    else if s[0] == x then 0
    else
      var k := IndexOf(s[1..], x);
      if k == -1 then -1 else k + 1
  }

  /**
   * Iterations `i`, `i + 1`, ..., `|AllModes|` of the loop in `getNextMode`:
   * the first candidate `AllModes[(index + i) % size]` that is not excluded,
   * or `current` when the loop runs out.
   */
  function ScanFrom(current: int, excluded: set<int>, index: int, i: nat): (r: int)
    requires index >= -1 && i >= 1
    ensures r == current || (r in AllModes && r !in excluded)
    decreases |AllModes| + 1 - i
  {
    if i > |AllModes| then current
    else
      var candidate := AllModes[KotlinRem(index + i, |AllModes|)];
      if candidate !in excluded then candidate
      else ScanFrom(current, excluded, index, i + 1)
  }

  /**
   * `getNextMode(currentMode, excluded)`: `currentMode` itself, or a ringer
   * mode that is not excluded.
   */
  function NextMode(current: int, excluded: set<int>): (next: int)
    ensures next == current || (next in AllModes && next !in excluded)
  {
    ScanFrom(current, excluded, IndexOf(AllModes, current), 1)
  }

  /** The loop of `getNextMode` itself, with its early return. */
  method NextModeScan(current: int, excluded: set<int>) returns (next: int)
    ensures next == NextMode(current, excluded)
  {
    var allModes := [NORMAL, VIBRATE, SILENT];
    var currentIndex := IndexOf(allModes, current);
    var size := |allModes|;
    for i := 1 to size + 1
      invariant allModes == AllModes && currentIndex == IndexOf(AllModes, current)
      invariant NextMode(current, excluded) == ScanFrom(current, excluded, currentIndex, i)
    {
      var nextMode := allModes[KotlinRem(currentIndex + i, size)];
      if nextMode !in excluded {
        return nextMode;
      }
    }
    return current;
  }

  /** The first of `candidates` that is not excluded, or `fallback`. */
  function FirstAllowed(candidates: seq<int>, excluded: set<int>, fallback: int): (r: int)
    ensures r == fallback || (r in candidates && r !in excluded)
    ensures (forall m :: m in candidates ==> m in excluded) ==> r == fallback
  {
    if candidates == [] then fallback
    else if candidates[0] !in excluded then candidates[0]
    else FirstAllowed(candidates[1..], excluded, fallback)
  }

  /**
   * The order in which the modes are tried after `current`, written out as a
   * table: the modes following `current` in the cycle, then `current` itself;
   * for a value that is not a ringer mode, the list from its start.
   */
  function Rotation(current: int): seq<int>
  {
    if current == NORMAL then [VIBRATE, SILENT, NORMAL]
    else if current == VIBRATE then [SILENT, NORMAL, VIBRATE]
    else if current == SILENT then [NORMAL, VIBRATE, SILENT]
    else AllModes
  }

  /** `getNextMode` tries the modes in rotation order after the current one. */
  lemma NextModeFollowsRotation(current: int, excluded: set<int>)
    ensures NextMode(current, excluded) == FirstAllowed(Rotation(current), excluded, current)
  {
    var index := IndexOf(AllModes, current);
    assert index == -1 ==> current !in AllModes;
    var rotation := Rotation(current);
    assert VisitsAt(index, rotation, 1) && VisitsAt(index, rotation, 2) && VisitsAt(index, rotation, 3);
    ScanFollows(current, excluded, index, rotation, 1);
  }

  /** Iteration `k` of the loop tries `rotation[k - 1]`. */
  predicate VisitsAt(index: int, rotation: seq<int>, k: int)
    requires index >= -1 && 1 <= k <= |rotation| == |AllModes|
  {
    AllModes[KotlinRem(index + k, |AllModes|)] == rotation[k - 1]
  }

  /** From iteration `i` on, the loop visits the tail `rotation[i - 1..]`. */
  lemma {:induction false} ScanFollows(current: int, excluded: set<int>, index: int, rotation: seq<int>, i: nat)
    requires index >= -1 && 1 <= i <= |AllModes| + 1 && |rotation| == |AllModes|
    requires forall k :: i <= k <= |AllModes| ==> VisitsAt(index, rotation, k)
    ensures ScanFrom(current, excluded, index, i) == FirstAllowed(rotation[i - 1..], excluded, current)
    decreases |AllModes| + 1 - i
  {
    if i <= |AllModes| {
      assert VisitsAt(index, rotation, i);
      assert rotation[i - 1..][0] == rotation[i - 1];
      assert rotation[i - 1..][1..] == rotation[i..];
      ScanFollows(current, excluded, index, rotation, i + 1);
    }
  }

  /** The result is never an excluded mode, unless every mode is excluded. */
  lemma NextModeAllowed(current: int, excluded: set<int>)
    requires exists m :: m in AllModes && m !in excluded
    ensures NextMode(current, excluded) in AllModes
    ensures NextMode(current, excluded) !in excluded
  {
    NextModeFollowsRotation(current, excluded);
    var rot := Rotation(current);
    var m :| m in AllModes && m !in excluded;
    assert m in rot;
    var r := NextMode(current, excluded);
    if r !in rot || r in excluded {
      assert r == current;
      assert current in AllModes;
      assert current in rot;
      assert current in excluded;
      FirstAllowedMeetsCandidate(rot, excluded, current, m);
    }
  }

  /** FirstAllowed returns an allowed candidate whenever there is one. */
  lemma {:induction false} FirstAllowedMeetsCandidate(candidates: seq<int>, excluded: set<int>, fallback: int, m: int)
    requires m in candidates && m !in excluded
    ensures FirstAllowed(candidates, excluded, fallback) in candidates
    ensures FirstAllowed(candidates, excluded, fallback) !in excluded
  {
    if candidates[0] in excluded {
      FirstAllowedMeetsCandidate(candidates[1..], excluded, fallback, m);
    }
  }

  /** With every mode excluded, the current mode is returned unchanged. */
  lemma NextModeAllExcluded(current: int, excluded: set<int>)
    requires forall m :: m in AllModes ==> m in excluded
    ensures NextMode(current, excluded) == current
  {
    NextModeFollowsRotation(current, excluded);
  }

  /**
   * For a value that is not a ringer mode `indexOf` gives -1, so the scan
   * starts at NORMAL: the result is the first non-excluded mode in list order.
   */
  lemma NextModeFromUnknown(current: int, excluded: set<int>)
    requires current !in AllModes
    ensures NextMode(current, excluded) == FirstAllowed(AllModes, excluded, current)
  {
    NextModeFollowsRotation(current, excluded);
  }

  /** A value that is not a ringer mode is followed by NORMAL when nothing is excluded. */
  lemma NextModeFromUnknownIsNormal(current: int)
    requires current !in AllModes
    ensures NextMode(current, {}) == NORMAL
  {
    NextModeFromUnknown(current, {});
  }

  /** With nothing excluded: NORMAL -> VIBRATE -> SILENT -> NORMAL. */
  lemma NextModeDefaultCycle()
    ensures NextMode(NORMAL, {}) == VIBRATE
    ensures NextMode(VIBRATE, {}) == SILENT
    ensures NextMode(SILENT, {}) == NORMAL
  {
    NextModeFollowsRotation(NORMAL, {});
    NextModeFollowsRotation(VIBRATE, {});
    NextModeFollowsRotation(SILENT, {});
  }

  /** Applying `getNextMode` three times with nothing excluded returns the start. */
  lemma NextModeThreeTimes(mode: int)
    requires mode in AllModes
    ensures NextMode(NextMode(NextMode(mode, {}), {}), {}) == mode
  {
    NextModeDefaultCycle();
  }

  /** With nothing excluded the result always differs from the current value. */
  lemma NextModeDefaultMoves(current: int)
    ensures NextMode(current, {}) != current
    ensures NextMode(current, {}) in AllModes
  {
    NextModeFollowsRotation(current, {});
  }

  // ---- icons and labels ----

  /** Drawable resources. */
  datatype Icon = VolumeOff | MobileVibrate | VolumeUp

  /** String resources naming a mode. */
  datatype Label = SilentLabel | VibrateLabel | NormalLabel | UnknownLabel

  /** `SoundModesManager.getModeIcon`, on the current ringer mode. */
  function ModeIcon(mode: int): (icon: Icon)
    ensures icon == VolumeOff <==> mode == SILENT
    ensures icon == MobileVibrate <==> mode == VIBRATE
  {
    if mode == SILENT then VolumeOff
    else if mode == VIBRATE then MobileVibrate
    else VolumeUp
  }

  /** `SoundModesManager.getModeLabel`, on the current ringer mode. */
  function ModeLabel(mode: int): (text: Label)
    ensures text == UnknownLabel <==> mode !in AllModes
  {
    if mode == SILENT then SilentLabel
    else if mode == VIBRATE then VibrateLabel
    else if mode == NORMAL then NormalLabel
    else UnknownLabel
  }

  /**
   * `setIcon` of the tile and the widget, written with the raw values 0 and
   * 1: it picks the manager's icon for every value.
   */
  function RawModeIcon(mode: int): (icon: Icon)
    ensures icon == ModeIcon(mode)
  {
    if mode == 0 then VolumeOff
    else if mode == 1 then MobileVibrate
    else VolumeUp
  }

  /**
   * The tile label `when` of `updateTile`, written with the raw values 0, 1
   * and 2: it is the manager's label for every value.
   */
  function RawModeLabel(mode: int): (text: Label)
    ensures text == ModeLabel(mode)
  {
    match mode
    case 0 => SilentLabel
    case 1 => VibrateLabel
    case 2 => NormalLabel
    case _ => UnknownLabel
  }

  /** The icon and the label of a mode name the same mode. */
  lemma IconMatchesLabel(mode: int)
    ensures ModeIcon(mode) == VolumeOff <==> ModeLabel(mode) == SilentLabel
    ensures ModeIcon(mode) == MobileVibrate <==> ModeLabel(mode) == VibrateLabel
    ensures ModeIcon(mode) == VolumeUp <==> ModeLabel(mode) in {NormalLabel, UnknownLabel}
  {
  }
}
