/** The wall table keyed by layout name and its lookup into a set
    (src/hooks/useWallGeneration.ts). */
module WallGeneration {
  import opened Types
  import opened PositionKey
  import TileGeneration

  /** `WALL_LAYOUTS`, entries in table order. */
  function WallLayout(g: GridStyle): seq<string> {
    match g
    case DefaultGrid => ["1,1", "1,2", "2,1", "4,4", "4,5", "5,4", "2,5", "2,6", "1,5"]
    case DungeonGrid => ["1,1", "1,2", "5,1", "5,2", "2,4", "3,4", "4,4", "2,2", "4,2"]
    case PokemonGrid => ["1,1", "2,1", "4,1", "5,1", "1,4", "2,4", "4,4", "5,4", "3,2"]
    case MonopolyGrid => ["1,1", "1,5", "5,1", "5,5", "2,3", "3,2", "3,4", "4,3", "3,3"]
  }

  /** `useWallGeneration(gridType)`: the table entry of the current level as a set. */
  function Walls(l: Level): set<string> {
    set s | s in WallLayout(StyleOf(l))
  }

  /** A key of the form digit ',' digit with both digits at most 6. */
  predicate IsGridKeyLiteral(s: string) {
    |s| == 3 && '0' <= s[0] <= '6' && s[1] == ',' && '0' <= s[2] <= '6'
  }

  lemma NumberOfDigit(c: char)
    requires IsDigit(c)
    ensures Number([c]) == Some(DigitValue(c))
  {
    assert AllDigits([c]);
    assert [c][..0] == [];
    assert DigitsValue([c]) == DigitsValue([]) * 10 + DigitValue(c);
  }

  /** A three-character grid key parses to an in-bounds position whose key it is. */
  lemma ParseGridKeyLiteral(s: string)
    requires IsGridKeyLiteral(s)
    ensures ParseKey(s) == Some(Pos(DigitValue(s[0]), DigitValue(s[2])))
    ensures InBounds(ParseKey(s).value) && Key(ParseKey(s).value) == s
  {
    var a, b := [s[0]], [s[2]];
    assert s == a + [','] + b;
    SplitAtComma(a, b);
    SplitNoComma(b);
    NumberOfDigit(s[0]);
    NumberOfDigit(s[2]);
    var p := Pos(DigitValue(s[0]), DigitValue(s[2]));
    assert NatToString(p.x) == a;
    assert NatToString(p.y) == b;
  }

  /** Each layout lists nine distinct keys. */
  lemma WallLayoutsDistinct(g: GridStyle)
    ensures |WallLayout(g)| == 9
    ensures forall i, j :: 0 <= i < j < |WallLayout(g)| ==> WallLayout(g)[i] != WallLayout(g)[j]
  {
  }

  /** Every entry of every layout is the key of a cell of the 7 x 7 grid. */
  lemma WallLayoutsOnGrid(g: GridStyle)
    ensures forall s :: s in WallLayout(g) ==>
              ParseKey(s).Some? && InBounds(ParseKey(s).value) && Key(ParseKey(s).value) == s
  {
    forall s | s in WallLayout(g)
      ensures ParseKey(s).Some? && InBounds(ParseKey(s).value) && Key(ParseKey(s).value) == s
    {
      ParseGridKeyLiteral(s);
    }
  }

  /** The dungeon's wall list is exactly the dungeon layout's lava cells. */
  lemma DungeonWallsAreLava()
    ensures Walls(Dungeon) == TileGeneration.KeysOfKind(TileGeneration.DungeonLayout, Lava)
  {
    var tiles := TileGeneration.DungeonLayout.tiles;
    var table := WallLayout(DungeonGrid);
    assert |tiles| == |table|;
    assert forall i :: 0 <= i < |tiles| ==> tiles[i].kind == Lava && Key(tiles[i].position) == table[i];
    forall s | s in table
      ensures s in TileGeneration.KeysOfKind(TileGeneration.DungeonLayout, Lava)
    {
      var i :| 0 <= i < |table| && table[i] == s;
      assert tiles[i] in tiles;
    }
  }

  /** The table has entries for two layout names, `pokemon` and `monopoly`,
      that no level selects: a level only ever looks up the default or the
      dungeon entry. */
  lemma ExtraLayoutNamesAreNoLevels(l: Level)
    ensures StyleOf(l) != PokemonGrid && StyleOf(l) != MonopolyGrid
    ensures |WallLayout(PokemonGrid)| == 9 && |WallLayout(MonopolyGrid)| == 9
    ensures Walls(l) != (set s | s in WallLayout(PokemonGrid))
    ensures Walls(l) != (set s | s in WallLayout(MonopolyGrid))
  {
    assert "4,1" in WallLayout(PokemonGrid) && "4,1" !in Walls(l);
    assert "5,5" in WallLayout(MonopolyGrid) && "5,5" !in Walls(l);
  }

  /** The default wall table and the default tile layout disagree about the
      cell (2,5): the table makes it a wall, the layout a path. */
  lemma DefaultTablesDisagree()
    ensures "2,5" in Walls(Default)
    ensures "2,5" in TileGeneration.PathSet(TileGeneration.DefaultLayout)
    ensures "2,5" !in TileGeneration.WallSet(TileGeneration.DefaultLayout)
  {
    var layout := TileGeneration.DefaultLayout;
    assert layout.tiles[8] == LevelTile(Path, Pos(2, 5));
    assert Key(Pos(2, 5)) == "2,5";
    TileGeneration.KeysOfKindMembership(layout, Path, Pos(2, 5));
    TileGeneration.ShippedWallsAndPathsDisjoint(Default);
  }
}
