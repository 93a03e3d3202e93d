/** The world state of the game (src/context/GameContext.tsx): the level,
    the menu / game-over / hole / boss-fight / victory flags, the two refs
    that guard hole detection, the reset counter, and the effects and timers
    that tie them to the character's position. */
module GameContext {
  import opened Types
  import opened PositionKey
  import TileGeneration
  import CharacterMovement

  /** The timer callbacks the context schedules, as events. */
  datatype Timer = RevealStage1 | RevealStage2 | ResetGuardElapsed | DoorTransfer

  /** All of the context's state, with the character's, as one value. */
  datatype World = World(
    level: Level,
    menuOpen: bool,
    holeRevealed: bool,
    gameOver: bool,
    bossFight: bool,
    victory: bool,
    resetTrigger: nat,
    revealingHole: bool,
    hasReset: bool,
    pending: multiset<Timer>,
    position: Pos,
    direction: Direction,
    moving: bool)

  /** Movement is switched off while the game is over or a boss fight is on. */
  predicate MovementDisabled(gameOver: bool, bossFight: bool) {
    gameOver || bossFight
  }

  /** The blocked cells handed to the movement hook: the walls and the lava,
      and the holes while the game is over or a boss fight is on. */
  function Obstacles(walls: set<string>, lava: set<string>, holes: set<string>,
                     gameOver: bool, bossFight: bool): set<string>
  {
    walls + lava + (if gameOver || bossFight then holes else {})
  }

  /** Walls and lava always block; a hole blocks exactly when movement is
      switched off, so while the character can move the holes never block. */
  lemma ObstaclesAndMovement(walls: set<string>, lava: set<string>, holes: set<string>,
                             gameOver: bool, bossFight: bool, k: string)
    ensures k in walls + lava ==> k in Obstacles(walls, lava, holes, gameOver, bossFight)
    ensures k in holes && k !in walls + lava ==>
              (k in Obstacles(walls, lava, holes, gameOver, bossFight) <==> MovementDisabled(gameOver, bossFight))
    ensures !MovementDisabled(gameOver, bossFight) ==> Obstacles(walls, lava, holes, gameOver, bossFight) == walls + lava
  {
  }

  /** As written, a fight does not stop the character: with the fight on and
      the game not over, an up-arrow press at (3,3) with (3,2) free moves the
      character to (3,2). */
  lemma FightDoesNotStopMovementAsWritten(walls: set<string>, lava: set<string>, holes: set<string>)
    requires Key(Pos(3, 2)) !in walls + lava + holes
    ensures MovementDisabled(false, true)
    ensures CharacterMovement.NextPosition(Pos(3, 3), ArrowUp, Obstacles(walls, lava, holes, false, true)) == Pos(3, 2)
  {
    assert Obstacles(walls, lava, holes, false, true) == walls + lava + holes;
  }

  function Abs(n: int): nat {
    if n < 0 then -n else n
  }

  function Manhattan(a: Pos, b: Pos): nat {
    Abs(a.x - b.x) + Abs(a.y - b.y)
  }

  /** `isNearGoblin`: some goblin key parses to a cell at Manhattan distance
      at most 1; a key that does not parse gives a NaN distance and never counts. */
  predicate NearGoblin(goblins: set<string>, p: Pos) {
    exists g :: g in goblins && ParseKey(g).Some? && Manhattan(ParseKey(g).value, p) <= 1
  }

  /** A goblin at `q` is near exactly the cell `q` itself and its four
      orthogonal neighbours. */
  lemma {:induction false} NearOneGoblin(q: Pos, p: Pos)
    ensures NearGoblin({Key(q)}, p) <==>
              p == q || exists d :: p == CharacterMovement.Neighbour(q, d)
  {
    KeyRoundTrip(q);
    if Manhattan(q, p) == 1 {
      if p.x == q.x + 1 {
        assert p == CharacterMovement.Neighbour(q, Right);
      } else if p.x == q.x - 1 {
        assert p == CharacterMovement.Neighbour(q, Left);
      } else if p.y == q.y + 1 {
        assert p == CharacterMovement.Neighbour(q, Down);
      } else {
        assert p == CharacterMovement.Neighbour(q, Up);
      }
    }
    if exists d :: p == CharacterMovement.Neighbour(q, d) {
      var d :| p == CharacterMovement.Neighbour(q, d);
      assert Manhattan(q, p) == 1;
    }
  }

  /** A diagonal neighbour is at distance 2 and does not start a fight. */
  lemma DiagonalIsNotNear(q: Pos, dx: int, dy: int)
    requires (dx == 1 || dx == -1) && (dy == 1 || dy == -1)
    ensures !NearGoblin({Key(q)}, Pos(q.x + dx, q.y + dy))
  {
    KeyRoundTrip(q);
  }

  /** `isAtDoor`: the position is one of the layout's doors. */
  predicate AtDoor(doors: seq<Pos>, p: Pos) {
    exists i :: 0 <= i < |doors| && doors[i] == p
  }

  /** The context provider's state. */
  class Game {
    var currentLevel: Level
    var isMenuOpen: bool
    var isHoleRevealed: bool
    var isGameOver: bool
    var isBossFightActive: bool
    var isVictory: bool
    var resetTrigger: nat
    /** The ref `isRevealingHole`. */
    var isRevealingHole: bool
    /** The ref `hasReset`: hole detection is off while it is set. */
    var hasReset: bool
    /** The timers that are scheduled and have not fired. */
    var pending: multiset<Timer>
    /** The movement hook's state. */
    const character: CharacterMovement.Character

    function State(): World
      reads this, character
    {
      World(currentLevel, isMenuOpen, isHoleRevealed, isGameOver, isBossFightActive, isVictory,
            resetTrigger, isRevealingHole, hasReset, pending,
            character.position, character.direction, character.isMoving)
    }

    /** The character is always on the grid. */
    ghost predicate Valid()
      reads this, character
    {
      InBounds(character.position)
    }

    /** The walls of the current level's layout. */
    function Walls(): set<string>
      reads this
    {
      TileGeneration.WallSet(TileGeneration.LevelLayout(currentLevel))
    }

    function IsAtDoor(): bool
      reads this, character
    {
      AtDoor(TileGeneration.LevelLayout(currentLevel).doors, character.position)
    }

    /** The provider's initial state. */
    constructor ()
      ensures Valid() && fresh(character)
      ensures State() == World(Default, true, false, false, false, false, 0, false, false,
                               multiset{}, Pos(3, 3), Down, false)
    {
      currentLevel := Default;
      isMenuOpen := true;
      isHoleRevealed := false;
      isGameOver := false;
      isBossFightActive := false;
      isVictory := false;
      resetTrigger := 0;
      isRevealingHole := false;
      hasReset := false;
      pending := multiset{};
      character := new CharacterMovement.Character();
    }

    /** `setIsMenuOpen` */
    method SetMenuOpen(open: bool)
      modifies this
      ensures State() == old(State()).(menuOpen := open)
    {
      isMenuOpen := open;
    }

    /** `setIsVictory` */
    method SetVictory(victory: bool)
      modifies this
      ensures State() == old(State()).(victory := victory)
    {
      isVictory := victory;
    }

    /** `setCurrentLevel`, with the effect that runs when the level changes:
        it clears the hole, the boss fight and the reveal in progress. */
    method SetCurrentLevel(l: Level)
      modifies this
      ensures old(currentLevel) == l ==> State() == old(State())
      ensures old(currentLevel) != l ==>
                State() == old(State()).(level := l, holeRevealed := false, bossFight := false,
                                         revealingHole := false)
    {
      if l != currentLevel {
        currentLevel := l;
        isHoleRevealed := false;
        isBossFightActive := false;
        isRevealingHole := false;
      }
    }

    /** A key press reaching the movement hook as the code is written: the
        hook reads only the blocked cells it is given, so the flag that is
        meant to switch movement off is dropped, and during a fight or after
        the game is over the character still steps, the holes then counting
        as blocked cells. */
    method KeyDownAsWritten(key: KeyPress, lava: set<string>, holes: set<string>)
      requires Valid()
      modifies character
      ensures Valid()
      ensures !old(character.isMoving) ==>
                var blocked := Obstacles(Walls(), lava, holes, isGameOver, isBossFightActive);
                State() == old(State()).(
                  position := CharacterMovement.NextPosition(old(character.position), key, blocked),
                  direction := CharacterMovement.NextDirection(old(character.direction), key),
                  moving := CharacterMovement.Accepts(old(character.position), key, blocked))
      ensures old(character.isMoving) ==> State() == old(State())
    {
      character.HandleKeyDown(key, Obstacles(Walls(), lava, holes, isGameOver, isBossFightActive));
    }

    /** A key press reaching the movement hook, with movement switched off
        while the game is over or a fight is on, as the context intends:
        otherwise the hook steps against the walls of the level and the lava. */
    method KeyDown(key: KeyPress, lava: set<string>, holes: set<string>)
      requires Valid()
      modifies character
      ensures Valid()
      ensures MovementDisabled(old(isGameOver), old(isBossFightActive)) ==> State() == old(State())
      ensures !MovementDisabled(old(isGameOver), old(isBossFightActive)) && !old(character.isMoving) ==>
                State() == old(State()).(
                  position := CharacterMovement.NextPosition(old(character.position), key, Walls() + lava),
                  direction := CharacterMovement.NextDirection(old(character.direction), key),
                  moving := CharacterMovement.Accepts(old(character.position), key, Walls() + lava))
      ensures old(character.isMoving) ==> State() == old(State())
    {
      if !MovementDisabled(isGameOver, isBossFightActive) {
        var obstacles := Obstacles(Walls(), lava, holes, isGameOver, isBossFightActive);
        assert obstacles == Walls() + lava;
        character.HandleKeyDown(key, obstacles);
      }
    }

    /** The movement hook's move-window timer firing. */
    method MoveWindowElapsed()
      modifies character
      ensures State() == old(State()).(moving := false)
    {
      character.MoveWindowElapsed();
    }

    /** `revealHole`: unless the hole is already revealed, a reveal is under
        way or the game is over, mark a reveal as under way and schedule its
        first stage. */
    method RevealHole()
      modifies this
      ensures old(!isHoleRevealed && !isRevealingHole && !isGameOver) ==>
                State() == old(State()).(revealingHole := true, pending := old(pending) + multiset{RevealStage1})
      ensures !old(!isHoleRevealed && !isRevealingHole && !isGameOver) ==> State() == old(State())
    {
      if !isHoleRevealed && !isRevealingHole && !isGameOver {
        isRevealingHole := true;
        pending := pending + multiset{RevealStage1};
      }
    }

    /** First stage of the reveal: the hole shows and the second stage is scheduled. */
    method FireRevealStage1()
      requires RevealStage1 in pending
      modifies this
      ensures State() == old(State()).(holeRevealed := true,
                                       pending := old(pending) - multiset{RevealStage1} + multiset{RevealStage2})
    {
      pending := pending - multiset{RevealStage1};
      isHoleRevealed := true;
      pending := pending + multiset{RevealStage2};
    }

    /** Second stage of the reveal: the game is over and the reveal has ended. */
    method FireRevealStage2()
      requires RevealStage2 in pending
      modifies this
      ensures State() == old(State()).(gameOver := true, revealingHole := false,
                                       pending := old(pending) - multiset{RevealStage2})
      ensures MovementDisabled(isGameOver, isBossFightActive)
    {
      pending := pending - multiset{RevealStage2};
      isGameOver := true;
      isRevealingHole := false;
    }

    /** `resetGame`, followed by the effect on `resetTrigger` that places the
        character on the safe cell (3,5); the reset guard stays on until its
        timer fires. */
    method ResetGame()
      modifies this, character
      ensures Valid()
      ensures State() == old(State()).(gameOver := false, holeRevealed := false, bossFight := false,
                                       victory := false, revealingHole := false, hasReset := true,
                                       resetTrigger := old(resetTrigger) + 1,
                                       pending := old(pending) + multiset{ResetGuardElapsed},
                                       position := Pos(3, 5))
    {
      isGameOver := false;
      isHoleRevealed := false;
      isBossFightActive := false;
      isVictory := false;
      isRevealingHole := false;
      hasReset := true;
      resetTrigger := resetTrigger + 1;
      pending := pending + multiset{ResetGuardElapsed};
      if resetTrigger > 0 {
        character.position := Pos(3, 5);
      }
    }

    /** `resetGame` as the code is written: the flags, the guard and the
        counter change, but the effect on `resetTrigger` then calls
        `resetCharacterPosition`, which the movement hook does not return, so
        the effect raises a TypeError (`raised`) and the character stays
        where it was. */
    method ResetGameAsWritten() returns (raised: bool)
      modifies this
      ensures raised
      ensures State() == old(State()).(gameOver := false, holeRevealed := false, bossFight := false,
                                       victory := false, revealingHole := false, hasReset := true,
                                       resetTrigger := old(resetTrigger) + 1,
                                       pending := old(pending) + multiset{ResetGuardElapsed})
    {
      isGameOver := false;
      isHoleRevealed := false;
      isBossFightActive := false;
      isVictory := false;
      isRevealingHole := false;
      hasReset := true;
      resetTrigger := resetTrigger + 1;
      pending := pending + multiset{ResetGuardElapsed};
      raised := false;
      if resetTrigger > 0 {
        raised := true;
      }
    }

    /** The reset guard's timer: hole detection is allowed again. */
    method FireResetGuard()
      requires ResetGuardElapsed in pending
      modifies this
      ensures State() == old(State()).(hasReset := false, pending := old(pending) - multiset{ResetGuardElapsed})
    {
      pending := pending - multiset{ResetGuardElapsed};
      hasReset := false;
    }

    /** The hole-detection effect: outside the reset guard, on the default
        level, with the game not over, no reveal under way, the character on a
        hole and the hole not yet revealed, the reveal starts. */
    method HoleEffect(holes: set<string>)
      modifies this
      ensures var fires := !old(hasReset) && old(currentLevel) == Default && !old(isGameOver) &&
                           !old(isRevealingHole) && Key(old(character.position)) in holes &&
                           !old(isHoleRevealed);
              State() == if fires
                         then old(State()).(revealingHole := true, pending := old(pending) + multiset{RevealStage1})
                         else old(State())
    {
      if hasReset {
        return;
      }
      var currentPos := Key(character.position);
      var isPlayerOnHole := currentPos in holes;
      if currentLevel == Default && !isGameOver && !isRevealingHole && isPlayerOnHole && !isHoleRevealed {
        RevealHole();
      }
    }

    /** The goblin effect: outside the reset guard, with the game not over and
        no fight on, being near a goblin on the dungeon level starts the fight. */
    method GoblinEffect(goblins: set<string>)
      modifies this
      ensures var fires := !old(hasReset) && !old(isGameOver) && !old(isBossFightActive) &&
                           NearGoblin(goblins, old(character.position)) && old(currentLevel) == Dungeon;
              State() == if fires then old(State()).(bossFight := true) else old(State())
    {
      if hasReset || isGameOver || isBossFightActive {
        return;
      }
      var isNearGoblin := NearGoblin(goblins, character.position);
      if isNearGoblin && currentLevel == Dungeon {
        isBossFightActive := true;
      }
    }

    /** The two identical door effects: their cleanup cancels the transfer
        timers they scheduled before, and each schedules one transfer when the
        character stands on a door of the default level with the game not over
        and no fight on. */
    method DoorEffect()
      modifies this
      ensures DoorTransfer in pending <==>
                currentLevel == Default && IsAtDoor() && !isGameOver && !isBossFightActive
      ensures State() == old(State()).(pending := pending)
      ensures pending[DoorTransfer := 0] == old(pending)[DoorTransfer := 0]
    {
      pending := pending[DoorTransfer := 0];
      if currentLevel == Default && IsAtDoor() && !isGameOver && !isBossFightActive {
        pending := pending + multiset{DoorTransfer, DoorTransfer};
      }
    }

    /** A transfer timer firing: the level becomes the dungeon. The second of
        the two timers finds the dungeon already set and changes nothing. */
    method FireDoorTransfer()
      requires DoorTransfer in pending
      modifies this
      ensures currentLevel == Dungeon
      ensures old(currentLevel) == Dungeon ==>
                State() == old(State()).(pending := old(pending) - multiset{DoorTransfer})
      ensures old(currentLevel) == Default ==>
                State() == old(State()).(level := Dungeon, holeRevealed := false, bossFight := false,
                                         revealingHole := false,
                                         pending := old(pending) - multiset{DoorTransfer})
    {
      pending := pending - multiset{DoorTransfer};
      SetCurrentLevel(Dungeon);
    }
  }
}
