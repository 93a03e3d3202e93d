/** The level-progression hook (src/hooks/useLevelProgression.ts): while the
    character stands at a door, Space swaps the default level and the
    dungeon and records the level it left. */
module LevelProgression {
  import opened Types

  /** `gridType === 'default' ? 'dungeon' : 'default'` */
  function Toggled(l: Level): (r: Level)
    ensures r != l
  {
    if l == Default then Dungeon else Default
  }

  /** Toggling twice returns to the original level. */
  lemma ToggleTwice(l: Level)
    ensures Toggled(Toggled(l)) == l
  {
  }

  /** The hook's `previousLevel` state, beside the caller's `gridType` state
      that the hook sets through `setGridType`. */
  class Progression {
    var previousLevel: Option<Level>
    var gridType: Level

    /** `previousLevel` starts undefined. */
    constructor (gridType: Level)
      ensures previousLevel == None && this.gridType == gridType
    {
      previousLevel := None;
      this.gridType := gridType;
    }

    /** A key press: the handler is registered only while at a door, and it
        reacts to Space only, recording the current level and switching to
        the other one. */
    method HandleKeyDown(key: KeyPress, isAtDoor: bool)
      modifies this
      ensures isAtDoor && key == Space ==>
                previousLevel == Some(old(gridType)) && gridType == Toggled(old(gridType))
      ensures !(isAtDoor && key == Space) ==>
                previousLevel == old(previousLevel) && gridType == old(gridType)
    {
      if isAtDoor {
        if key == Space {
          previousLevel := Some(gridType);
          gridType := Toggled(gridType);
        }
      }
    }
  }
}
