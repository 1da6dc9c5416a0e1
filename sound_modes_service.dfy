/**
 * SoundModesService, the quick-settings tile: `changeSoundMode` without a
 * permission guard, and `updateTile`, which refreshes the tile in place.
 */
module SoundModesService {
  import opened AndroidOs
  import opened RingerModes
  import opened ModeChange
  import Manager = SoundModesManager

  /**
   * `changeSoundMode()`: the transition, whether or not permission is
   * granted; a next mode other than SILENT becomes the ringer mode.
   */
  function AfterChangeSoundMode(s: OsState): (t: OsState)
    ensures NextMode(s.ringerMode, {}) != SILENT ==> t.ringerMode == NextMode(s.ringerMode, {})
    ensures t.permission == s.permission
  {
    AfterTransition(s, s.ringerMode, NextMode(s.ringerMode, {}))
  }

  method ChangeSoundMode(os: Device)
    requires os.Valid()
    modifies os
    ensures os.Valid()
    ensures os.State() == AfterChangeSoundMode(old(os.State()))
  {
    var currentMode := os.ringerMode;
    var nextMode := NextModeScan(currentMode, {});
    ApplyTransition(os, currentMode, nextMode);
  }

  /**
   * There is no guard: every call acts on the OS, with or without
   * permission, and a next mode other than SILENT is set as the ringer mode.
   * With permission it does exactly what the manager does.
   */
  lemma AlwaysActs(s: OsState)
    requires Consistent(s)
    ensures var t := AfterChangeSoundMode(s);
      var next := NextMode(s.ringerMode, {});
      |t.log| > |s.log| &&
      (next != SILENT ==> t.ringerMode == next) &&
      (s.permission ==> t == Manager.AfterChangeSoundMode(s))
  {
    var next := NextMode(s.ringerMode, {});
    NextModeDefaultMoves(s.ringerMode);
    TransitionShape(s, s.ringerMode, next);
    TransitionActs(s, s.ringerMode, next);
    if next != SILENT {
      EnteringOtherMode(s, s.ringerMode, next);
    }
  }

  datatype TileState = StateInactive | StateActive

  /** The quick-settings tile, whose fields `updateTile` sets in place. */
  class QsTile {
    var title: Label
    var contentDescription: Label
    var icon: Icon
    var state: TileState
    var pushes: nat  // calls of Tile.updateTile()
  }

  /**
   * `updateTile()`: with no tile nothing happens; otherwise label and
   * description name the current ringer mode, the icon shows it, the state
   * is ACTIVE, and the tile is pushed once.
   */
  method UpdateTile(os: Device, tile: QsTile?)
    modifies tile
    ensures tile != null ==>
      tile.title == RawModeLabel(os.ringerMode) &&
      tile.contentDescription == tile.title &&
      tile.icon == RawModeIcon(os.ringerMode) &&
      tile.state == StateActive &&
      tile.pushes == old(tile.pushes) + 1
  {
    if tile == null {
      return;
    }
    var ringerMode := os.ringerMode;
    var tileLabel := RawModeLabel(ringerMode);
    tile.contentDescription := tileLabel;
    tile.title := tileLabel;
    tile.icon := RawModeIcon(ringerMode);
    tile.state := StateActive;
    tile.pushes := tile.pushes + 1;
  }

  /** `onStartListening()`: refresh the tile to the mode the OS reports. */
  method OnStartListening(os: Device, tile: QsTile?)
    modifies tile
    ensures tile != null ==>
      tile.title == ModeLabel(os.ringerMode) && tile.contentDescription == tile.title &&
      tile.icon == ModeIcon(os.ringerMode) && tile.state == StateActive &&
      tile.pushes == old(tile.pushes) + 1
  {
    UpdateTile(os, tile);
  }

  /** `onClick()`: change the mode, then show the mode the OS now reports. */
  method OnClick(os: Device, tile: QsTile?)
    requires os.Valid()
    modifies os, tile
    ensures os.Valid()
    ensures os.State() == AfterChangeSoundMode(old(os.State()))
    ensures tile != null ==>
      tile.title == ModeLabel(os.ringerMode) && tile.contentDescription == tile.title &&
      tile.icon == ModeIcon(os.ringerMode) && tile.state == StateActive &&
      tile.pushes == old(tile.pushes) + 1
  {
    ChangeSoundMode(os);
    UpdateTile(os, tile);
  }
}
