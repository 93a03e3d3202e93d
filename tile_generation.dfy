/** The static level layouts and the position sets derived from them
    (src/hooks/useTileGeneration.ts). */
module TileGeneration {
  import opened Types
  import opened PositionKey

  /** `LEVEL_LAYOUTS.default`, tiles in the order the table lists them. */
  const DefaultLayout: LevelMap :=
    LevelMap(
      [
        LevelTile(Wall, Pos(1, 1)),
        LevelTile(Wall, Pos(3, 1)),
        LevelTile(Wall, Pos(3, 2)),
        LevelTile(Wall, Pos(1, 2)),
        LevelTile(Wall, Pos(2, 1)),
        LevelTile(Wall, Pos(4, 4)),
        LevelTile(Wall, Pos(4, 5)),
        LevelTile(Wall, Pos(5, 4)),
        LevelTile(Path, Pos(2, 5)),
        LevelTile(Wall, Pos(2, 6)),
        LevelTile(Wall, Pos(1, 5)),
        LevelTile(Wall, Pos(4, 3)),
        LevelTile(Path, Pos(4, 2)),
        LevelTile(Path, Pos(5, 2)),
        LevelTile(Wall, Pos(5, 1)),
        LevelTile(Wall, Pos(5, 3)),
        LevelTile(Path, Pos(4, 1)),
        LevelTile(Path, Pos(3, 6)),
        LevelTile(Path, Pos(4, 6)),
        LevelTile(Path, Pos(5, 5)),
        LevelTile(Path, Pos(6, 5)),
        LevelTile(Path, Pos(5, 6)),
        LevelTile(Path, Pos(6, 4)),
        LevelTile(Path, Pos(6, 3)),
        LevelTile(Path, Pos(3, 5)),
        LevelTile(Path, Pos(2, 4)),
        LevelTile(Path, Pos(1, 4)),
        LevelTile(Path, Pos(1, 3)),
        LevelTile(Path, Pos(0, 3)),
        LevelTile(Path, Pos(0, 2)),
        LevelTile(Path, Pos(0, 1)),
        LevelTile(Path, Pos(0, 0)),
        LevelTile(Path, Pos(1, 0)),
        LevelTile(Path, Pos(2, 0)),
        LevelTile(Path, Pos(3, 0)),
        LevelTile(Path, Pos(4, 0))
      ],
      [Pos(6, 2)])

  /** `LEVEL_LAYOUTS.dungeon` */
  const DungeonLayout: LevelMap :=
    LevelMap(
      [
        LevelTile(Lava, Pos(1, 1)),
        LevelTile(Lava, Pos(1, 2)),
        LevelTile(Lava, Pos(5, 1)),
        LevelTile(Lava, Pos(5, 2)),
        LevelTile(Lava, Pos(2, 4)),
        LevelTile(Lava, Pos(3, 4)),
        LevelTile(Lava, Pos(4, 4)),
        LevelTile(Lava, Pos(2, 2)),
        LevelTile(Lava, Pos(4, 2))
      ],
      [Pos(3, 6)])

  /** `levelData`: the layout selected by the current grid type. */
  function LevelLayout(l: Level): LevelMap {
    match l
    case Default => DefaultLayout
    case Dungeon => DungeonLayout
  }

  /** The keys of the tiles of one kind (`tiles.filter(...).map(...)` in a `Set`). */
  function KeysOfKind(m: LevelMap, kind: TileType): set<string> {
    set t | t in m.tiles && t.kind == kind :: Key(t.position)
  }

  /** `wallSet` */
  function WallSet(m: LevelMap): set<string> {
    KeysOfKind(m, Wall)
  }

  /** `pathSet` */
  function PathSet(m: LevelMap): set<string> {
    KeysOfKind(m, Path)
  }

  /** `doorSet` */
  function DoorSet(m: LevelMap): set<string> {
    set d | d in m.doors :: Key(d)
  }

  /** No two tiles of the layout stand on the same cell. */
  predicate DistinctPositions(tiles: seq<LevelTile>) {
    forall i, j :: 0 <= i < j < |tiles| ==> tiles[i].position != tiles[j].position
  }

  predicate LayoutInBounds(m: LevelMap) {
    (forall i :: 0 <= i < |m.tiles| ==> InBounds(m.tiles[i].position)) &&
    (forall i :: 0 <= i < |m.doors| ==> InBounds(m.doors[i]))
  }

  /** A position's key is in the set of a kind exactly when a tile of that kind
      stands on that position. */
  lemma KeysOfKindMembership(m: LevelMap, kind: TileType, p: Pos)
    ensures Key(p) in KeysOfKind(m, kind) <==>
            exists i :: 0 <= i < |m.tiles| && m.tiles[i] == LevelTile(kind, p)
  {
    if Key(p) in KeysOfKind(m, kind) {
      var t :| t in m.tiles && t.kind == kind && Key(t.position) == Key(p);
      KeyInjective(t.position, p);
      var i :| 0 <= i < |m.tiles| && m.tiles[i] == t;
    }
    if exists i :: 0 <= i < |m.tiles| && m.tiles[i] == LevelTile(kind, p) {
      var i :| 0 <= i < |m.tiles| && m.tiles[i] == LevelTile(kind, p);
      assert m.tiles[i] in m.tiles;
    }
  }

  /** A position's key is a door key exactly when the layout lists that door. */
  lemma DoorSetMembership(m: LevelMap, p: Pos)
    ensures Key(p) in DoorSet(m) <==> exists i :: 0 <= i < |m.doors| && m.doors[i] == p
  {
    if Key(p) in DoorSet(m) {
      var d :| d in m.doors && Key(d) == Key(p);
      KeyInjective(d, p);
      var i :| 0 <= i < |m.doors| && m.doors[i] == d;
    }
    if exists i :: 0 <= i < |m.doors| && m.doors[i] == p {
      var i :| 0 <= i < |m.doors| && m.doors[i] == p;
      assert m.doors[i] in m.doors;
    }
  }

  /** When no two tiles share a cell, the key sets of two different kinds are
      disjoint. */
  lemma KindsDisjoint(m: LevelMap, k1: TileType, k2: TileType)
    requires DistinctPositions(m.tiles) && k1 != k2
    ensures KeysOfKind(m, k1) !! KeysOfKind(m, k2)
  {
    forall s | s in KeysOfKind(m, k1)
      ensures s !in KeysOfKind(m, k2)
    {
      var t1 :| t1 in m.tiles && t1.kind == k1 && Key(t1.position) == s;
      if s in KeysOfKind(m, k2) {
        var t2 :| t2 in m.tiles && t2.kind == k2 && Key(t2.position) == s;
        KeyInjective(t1.position, t2.position);
        assert false;
      }
    }
  }

  /** An index of the default layout's tiles by cell: the inverse of the
      tile list, used to show that no cell is listed twice. */
  ghost function DefaultTileIndex(p: Pos): int {
    match p
    case Pos(1, 1) => 0
    case Pos(3, 1) => 1
    case Pos(3, 2) => 2
    case Pos(1, 2) => 3
    case Pos(2, 1) => 4
    case Pos(4, 4) => 5
    case Pos(4, 5) => 6
    case Pos(5, 4) => 7
    case Pos(2, 5) => 8
    case Pos(2, 6) => 9
    case Pos(1, 5) => 10
    case Pos(4, 3) => 11
    case Pos(4, 2) => 12
    case Pos(5, 2) => 13
    case Pos(5, 1) => 14
    case Pos(5, 3) => 15
    case Pos(4, 1) => 16
    case Pos(3, 6) => 17
    case Pos(4, 6) => 18
    case Pos(5, 5) => 19
    case Pos(6, 5) => 20
    case Pos(5, 6) => 21
    case Pos(6, 4) => 22
    case Pos(6, 3) => 23
    case Pos(3, 5) => 24
    case Pos(2, 4) => 25
    case Pos(1, 4) => 26
    case Pos(1, 3) => 27
    case Pos(0, 3) => 28
    case Pos(0, 2) => 29
    case Pos(0, 1) => 30
    case Pos(0, 0) => 31
    case Pos(1, 0) => 32
    case Pos(2, 0) => 33
    case Pos(3, 0) => 34
    case Pos(4, 0) => 35
    case _ => -1
  }

  ghost function DungeonTileIndex(p: Pos): int {
    match p
    case Pos(1, 1) => 0
    case Pos(1, 2) => 1
    case Pos(5, 1) => 2
    case Pos(5, 2) => 3
    case Pos(2, 4) => 4
    case Pos(3, 4) => 5
    case Pos(4, 4) => 6
    case Pos(2, 2) => 7
    case Pos(4, 2) => 8
    case _ => -1
  }

  lemma DefaultTileIndexInverts()
    ensures forall i :: 0 <= i < |DefaultLayout.tiles| ==> DefaultTileIndex(DefaultLayout.tiles[i].position) == i
  {
  }

  lemma DungeonTileIndexInverts()
    ensures forall i :: 0 <= i < |DungeonLayout.tiles| ==> DungeonTileIndex(DungeonLayout.tiles[i].position) == i
  {
  }

  /** No shipped layout lists a cell twice. */
  lemma ShippedLayoutsDistinct(l: Level)
    ensures DistinctPositions(LevelLayout(l).tiles)
  {
    if l == Default {
      DefaultTileIndexInverts();
    } else {
      DungeonTileIndexInverts();
    }
  }

  /** Every shipped tile and door lies on the 7 x 7 grid. */
  lemma ShippedLayoutsInBounds(l: Level)
    ensures LayoutInBounds(LevelLayout(l))
  {
  }

  /** In every shipped layout the walls and the paths are disjoint. */
  lemma ShippedWallsAndPathsDisjoint(l: Level)
    ensures WallSet(LevelLayout(l)) !! PathSet(LevelLayout(l))
  {
    ShippedLayoutsDistinct(l);
    KindsDisjoint(LevelLayout(l), Wall, Path);
  }

  /** No door of a shipped layout is a wall or a lava cell of that layout. */
  lemma ShippedDoorsClear(l: Level)
    ensures DoorSet(LevelLayout(l)) !! (WallSet(LevelLayout(l)) + KeysOfKind(LevelLayout(l), Lava))
  {
    var m := LevelLayout(l);
    var door := m.doors[0];
    assert m.doors == [door];
    assert forall i :: 0 <= i < |m.tiles| ==> m.tiles[i].position != door;
    forall s | s in DoorSet(m)
      ensures s !in WallSet(m) && s !in KeysOfKind(m, Lava)
    {
      DoorSetMembership(m, door);
      KeysOfKindMembership(m, Wall, door);
      KeysOfKindMembership(m, Lava, door);
    }
  }
}
