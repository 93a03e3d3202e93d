/** The value types shared by the hooks and components of the tile game
    (the shapes of src/types/types.ts, plus the few enumerations the
    components spell as string unions). */
module Types {

  /** `TilePosition`: a grid cell; the playing field is 7 x 7. */
  datatype Pos = Pos(x: int, y: int)

  /** The largest coordinate of the 7 x 7 grid. */
  const MaxCoord: int := 6

  predicate InBounds(p: Pos) {
    0 <= p.x <= MaxCoord && 0 <= p.y <= MaxCoord
  }

  /** The character's heading. */
  datatype Direction = Up | Down | Left | Right

  /** `GridType`: the two levels the game has. */
  datatype Level = Default | Dungeon

  /** The four layout names the grid component and the wall table know;
      only the first two are levels. */
  datatype GridStyle = DefaultGrid | DungeonGrid | PokemonGrid | MonopolyGrid

  function StyleOf(l: Level): GridStyle {
    match l
    case Default => DefaultGrid
    case Dungeon => DungeonGrid
  }

  /** `TileType` */
  datatype TileType = Grass | Wall | Path | Door | Rock | Lava

  /** `LevelTile` */
  datatype LevelTile = LevelTile(kind: TileType, position: Pos)

  /** `LevelMap` */
  datatype LevelMap = LevelMap(tiles: seq<LevelTile>, doors: seq<Pos>)

  /** `InventoryItem` */
  datatype InventoryItem = InventoryItem(id: string, name: string, image: string)

  /** The keyboard keys the game reacts to; every other key is `OtherKey`. */
  datatype KeyPress = ArrowUp | ArrowDown | ArrowLeft | ArrowRight | Space | OtherKey

  datatype Option<T> = None | Some(value: T)
}
