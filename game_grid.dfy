/** The cell classifier and the 49-cell layout of the grid component
    (src/components/GameGrid.tsx). */
module GameGrid {
  import opened Types
  import opened PositionKey
  import TileGeneration

  /** `DOOR_POSITIONS`: the door the grid draws for each layout name. */
  function DoorPosition(g: GridStyle): Pos {
    match g
    case DefaultGrid => Pos(6, 3)
    case DungeonGrid => Pos(3, 6)
    case PokemonGrid => Pos(6, 3)
    case MonopolyGrid => Pos(6, 3)
  }

  /** The ground tile drawn where there is neither a door nor a wall. */
  function GroundTile(g: GridStyle): TileType {
    match g
    case DungeonGrid => Rock
    case PokemonGrid => Grass
    case MonopolyGrid => Path
    case DefaultGrid => Grass
  }

  /** `getTileType(x, y, walls, gridType)`: the door is checked first, then
      the walls, and every other cell is ground. */
  function TileTypeAt(x: int, y: int, walls: set<string>, g: GridStyle): (t: TileType)
    ensures t == Door <==> Pos(x, y) == DoorPosition(g)
    ensures t == Wall <==> Pos(x, y) != DoorPosition(g) && Key(Pos(x, y)) in walls
    ensures t != Door && t != Wall ==> t == GroundTile(g)
    ensures t != Lava
  {
    var door := DoorPosition(g);
    if x == door.x && y == door.y then Door
    else if Key(Pos(x, y)) in walls then Wall
    else GroundTile(g)
  }

  /** The number of cells the grid renders. */
  const CellCount: int := 49

  /** The cell rendered at index `i`: column `i % 7`, row `floor(i / 7)`. */
  function CellOf(i: int): Pos
    requires 0 <= i < CellCount
  {
    Pos(i % 7, i / 7)
  }

  /** The index at which a cell is rendered. */
  function IndexOf(p: Pos): int {
    p.y * 7 + p.x
  }

  /** The index-to-cell mapping is a bijection between [0, 49) and the grid. */
  lemma CellIndexBijection()
    ensures forall i :: 0 <= i < CellCount ==> InBounds(CellOf(i)) && IndexOf(CellOf(i)) == i
    ensures forall p :: InBounds(p) ==> 0 <= IndexOf(p) < CellCount && CellOf(IndexOf(p)) == p
  {
    forall p | InBounds(p)
      ensures 0 <= IndexOf(p) < CellCount && CellOf(IndexOf(p)) == p
    {
      var i := IndexOf(p);
      assert i / 7 == p.y && i % 7 == p.x;
    }
  }

  /** The 49 tile types the grid renders, row by row. */
  function RenderedTiles(walls: set<string>, g: GridStyle): (r: seq<TileType>)
    ensures |r| == CellCount
    ensures forall i :: 0 <= i < CellCount ==> r[i] == TileTypeAt(CellOf(i).x, CellOf(i).y, walls, g)
  {
    seq(CellCount, i requires 0 <= i < CellCount => TileTypeAt(i % 7, i / 7, walls, g))
  }

  /** The rendered grid shows exactly one door, at the index of the layout's
      door cell, and no lava anywhere. */
  lemma RenderedGridDoorAndNoLava(walls: set<string>, g: GridStyle)
    ensures forall i :: 0 <= i < CellCount ==>
              (RenderedTiles(walls, g)[i] == Door <==> i == IndexOf(DoorPosition(g)))
    ensures forall i :: 0 <= i < CellCount ==> RenderedTiles(walls, g)[i] != Lava
  {
    CellIndexBijection();
    var r := RenderedTiles(walls, g);
    forall i | 0 <= i < CellCount
      ensures r[i] == Door <==> i == IndexOf(DoorPosition(g))
    {
      assert InBounds(DoorPosition(g));
    }
  }

  /** The grid draws the default level's door one cell below the door that
      the default tile layout lists. */
  lemma DrawnDefaultDoorDiffersFromLayout()
    ensures DoorPosition(StyleOf(Default)) == Pos(6, 3)
    ensures TileGeneration.LevelLayout(Default).doors == [Pos(6, 2)]
  {
  }
}
