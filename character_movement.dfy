/** The character-movement hook (src/hooks/useCharacterMovement.ts): the
    position, heading and moving flag of the character, the arrow-key step
    against a set of blocked cells, and the timer that ends a move. */
module CharacterMovement {
  import opened Types
  import opened PositionKey

  /** The value of `next` after the key switch: the very object `prev` (an
      arrow key at the edge of the grid), or a fresh object (the moved copy,
      or for any other key the untouched copy `{ ...prev }`). Only a fresh
      object passes the `next !== prev` test. */
  datatype Next = SameObject | Fresh(p: Pos)

  /** The heading an arrow key sets; other keys set none. */
  function KeyHeading(key: KeyPress): Option<Direction> {
    match key
    case ArrowUp => Some(Up)
    case ArrowDown => Some(Down)
    case ArrowLeft => Some(Left)
    case ArrowRight => Some(Right)
    case _ => None
  }

  /** The cell one step away in direction `d` (up decreases y). */
  function Neighbour(p: Pos, d: Direction): (q: Pos)
    ensures (q.x == p.x && (q.y - p.y == 1 || p.y - q.y == 1)) != (q.y == p.y && (q.x - p.x == 1 || p.x - q.x == 1))
    ensures d == Up ==> q.y < p.y
    ensures d == Down ==> q.y > p.y
    ensures d == Left ==> q.x < p.x
    ensures d == Right ==> q.x > p.x
  {
    match d
    case Up => Pos(p.x, p.y - 1)
    case Down => Pos(p.x, p.y + 1)
    case Left => Pos(p.x - 1, p.y)
    case Right => Pos(p.x + 1, p.y)
  }

  /** The edge guard of each arrow: `prev.y > 0`, `prev.y < 6`, `prev.x > 0`, `prev.x < 6`. */
  predicate EdgeAllows(p: Pos, d: Direction) {
    match d
    case Up => p.y > 0
    case Down => p.y < MaxCoord
    case Left => p.x > 0
    case Right => p.x < MaxCoord
  }

  /** `next` as the key switch leaves it. */
  function Candidate(prev: Pos, key: KeyPress): Next {
    match KeyHeading(key)
    case None => Fresh(prev)
    case Some(d) => if EdgeAllows(prev, d) then Fresh(Neighbour(prev, d)) else SameObject
  }

  /** Whether the key press is accepted: `next !== prev` and the cell is not blocked. */
  predicate Accepts(prev: Pos, key: KeyPress, walls: set<string>) {
    Candidate(prev, key).Fresh? && Key(Candidate(prev, key).p) !in walls
  }

  /** The position after a key press handled while not moving. */
  function NextPosition(prev: Pos, key: KeyPress, walls: set<string>): Pos {
    if Accepts(prev, key, walls) then Candidate(prev, key).p else prev
  }

  /** The heading after a key press handled while not moving. */
  function NextDirection(current: Direction, key: KeyPress): Direction {
    match KeyHeading(key)
    case Some(d) => d
    case None => current
  }

  /** A step never leaves the grid. */
  lemma StepStaysInBounds(prev: Pos, key: KeyPress, walls: set<string>)
    requires InBounds(prev)
    ensures InBounds(NextPosition(prev, key, walls))
  {
  }

  /** A step never enters a blocked cell: the position changes only to a cell
      outside `walls`, and a blocked target leaves the position where it was. */
  lemma StepAvoidsWalls(prev: Pos, key: KeyPress, walls: set<string>)
    ensures NextPosition(prev, key, walls) != prev ==> Key(NextPosition(prev, key, walls)) !in walls
    ensures KeyHeading(key).Some? && Key(Neighbour(prev, KeyHeading(key).value)) in walls ==>
              NextPosition(prev, key, walls) == prev
  {
  }

  /** An arrow key moves the character exactly to the neighbouring cell in its
      direction when the edge guard allows it and that cell is not blocked, and
      otherwise leaves it in place (a bump); the heading is the key's either way. */
  lemma ArrowStep(prev: Pos, key: KeyPress, walls: set<string>, current: Direction)
    requires KeyHeading(key).Some?
    ensures var d := KeyHeading(key).value;
            NextDirection(current, key) == d &&
            (Accepts(prev, key, walls) <==> EdgeAllows(prev, d) && Key(Neighbour(prev, d)) !in walls) &&
            NextPosition(prev, key, walls) == (if Accepts(prev, key, walls) then Neighbour(prev, d) else prev)
  {
  }

  /** Any other key keeps position and heading, yet is accepted (and so starts
      a move window) whenever the current cell itself is not blocked, because
      `{ ...prev }` is a fresh object. */
  lemma OtherKeyQuirk(prev: Pos, key: KeyPress, walls: set<string>, current: Direction)
    requires KeyHeading(key).None?
    ensures NextPosition(prev, key, walls) == prev && NextDirection(current, key) == current
    ensures Accepts(prev, key, walls) <==> Key(prev) !in walls
  {
  }

  /** The position after a series of key presses, each handled after the
      previous move window has elapsed. */
  function Walk(start: Pos, keys: seq<KeyPress>, walls: set<string>): Pos
    decreases |keys|
  {
    if keys == [] then start else Walk(NextPosition(start, keys[0], walls), keys[1..], walls)
  }

  /** Whatever keys are pressed, a walk that starts on a free cell of the grid
      stays on free cells of the grid. */
  lemma {:induction false} WalkStaysOnFreeCells(start: Pos, keys: seq<KeyPress>, walls: set<string>)
    requires InBounds(start) && Key(start) !in walls
    ensures InBounds(Walk(start, keys, walls)) && Key(Walk(start, keys, walls)) !in walls
    decreases |keys|
  {
    if keys != [] {
      var next := NextPosition(start, keys[0], walls);
      StepStaysInBounds(start, keys[0], walls);
      StepAvoidsWalls(start, keys[0], walls);
      WalkStaysOnFreeCells(next, keys[1..], walls);
    }
  }

  /** The hook's state: `position`, `direction` and `isMoving`. */
  class Character {
    var position: Pos
    var direction: Direction
    var isMoving: bool

    /** The hook's initial state. */
    constructor ()
      ensures position == Pos(3, 3) && direction == Down && !isMoving
    {
      position := Pos(3, 3);
      direction := Down;
      isMoving := false;
    }

    /** `handleKeyDown`: ignored while a move window is open; otherwise an
        arrow key sets the heading, and an accepted press sets the position
        and opens a move window (the timer that closes it is `MoveWindowElapsed`). */
    method HandleKeyDown(key: KeyPress, walls: set<string>)
      modifies this
      ensures old(isMoving) ==> position == old(position) && direction == old(direction) && isMoving
      ensures !old(isMoving) ==>
                position == NextPosition(old(position), key, walls) &&
                direction == NextDirection(old(direction), key) &&
                isMoving == Accepts(old(position), key, walls)
      ensures InBounds(old(position)) ==> InBounds(position)
    {
      if isMoving {
        return;
      }
      var prev := position;
      var next := Fresh(prev);
      match key {
        case ArrowUp =>
          direction := Up;
          next := if prev.y > 0 then Fresh(Pos(prev.x, prev.y - 1)) else SameObject;
        case ArrowDown =>
          direction := Down;
          next := if prev.y < 6 then Fresh(Pos(prev.x, prev.y + 1)) else SameObject;
        case ArrowLeft =>
          direction := Left;
          next := if prev.x > 0 then Fresh(Pos(prev.x - 1, prev.y)) else SameObject;
        case ArrowRight =>
          direction := Right;
          next := if prev.x < 6 then Fresh(Pos(prev.x + 1, prev.y)) else SameObject;
        case Space =>
        case OtherKey =>
      }
      if next.Fresh? && Key(next.p) !in walls {
        isMoving := true;
        position := next.p;
      }
      if InBounds(prev) {
        StepStaysInBounds(prev, key, walls);
      }
    }

    /** The move-window timer firing: `setIsMoving(false)`. */
    method MoveWindowElapsed()
      modifies this
      ensures !isMoving && position == old(position) && direction == old(direction)
    {
      isMoving := false;
    }
  }
}
