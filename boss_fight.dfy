/** The boss fight (src/components/BossFight.tsx): the dice rules of a
    roll, the win test, the choice of defeat messages without repeats, and
    the stage machine intro -> rolling -> result -> conclusion driven by the
    fight button and the roll's chained timers. */
module BossFight {
  import opened Types
  import GameContext

  datatype Stage = Intro | Rolling | Result | Conclusion

  datatype Outcome = Win | Lose

  /** Which timer of the chain started by a roll is due next. */
  datatype RollStep = Idle | BossRollDue | PlayerRollDue | ResultDue

  /** `defeatMessages` */
  const DefeatMessages: seq<string> := [
    "si tě namazal na chleba...",
    "s tebou vytřel podlahu...",
    "s tebou nakrmil krysy...",
    "na tebe vytáhl tvoje trauma z dětství...",
    "ti připomněl co se stalo tehdy na táboře...",
    "ti ukázal, kdo je tady boss..."
  ]

  predicate NoDuplicates(s: seq<string>) {
    forall i, j :: 0 <= i < j < |s| ==> s[i] != s[j]
  }

  lemma DefeatMessagesDistinct()
    ensures |DefeatMessages| == 6 && NoDuplicates(DefeatMessages)
  {
  }

  /** The number of values `Math.floor(Math.random() * n)` ranges over for the
      boss's final roll: 2 on the first roll, 6 afterwards. */
  function BossDrawCount(firstRoll: bool): nat {
    if firstRoll then 2 else 6
  }

  /** The boss's final roll from a draw in [0, BossDrawCount). */
  function BossRoll(firstRoll: bool, draw: int): (r: int)
    requires 0 <= draw < BossDrawCount(firstRoll)
    ensures firstRoll ==> r == 5 || r == 6
    ensures !firstRoll ==> 1 <= r <= 6
  {
    if firstRoll then draw + 5 else draw + 1
  }

  /** Every value of the range is some draw's roll. */
  lemma BossRollCoversRange(firstRoll: bool, v: int)
    requires if firstRoll then 5 <= v <= 6 else 1 <= v <= 6
    ensures exists draw :: 0 <= draw < BossDrawCount(firstRoll) && BossRoll(firstRoll, draw) == v
  {
    var draw := if firstRoll then v - 5 else v - 1;
    assert BossRoll(firstRoll, draw) == v;
  }

  /** The number of values the player's draw ranges over: 4 on the first roll, 6 afterwards. */
  function PlayerDrawCount(firstRoll: bool): nat {
    if firstRoll then 4 else 6
  }

  function Min(a: int, b: int): int {
    if a < b then a else b
  }

  /** The player's final roll: on the first roll `min(boss - 1, draw + 1)`,
      afterwards `draw + 1`. */
  function PlayerRoll(firstRoll: bool, bossRoll: int, draw: int): (r: int)
    requires 0 <= draw < PlayerDrawCount(firstRoll)
    ensures firstRoll && (bossRoll == 5 || bossRoll == 6) ==> 1 <= r <= 4 && r < bossRoll
    ensures !firstRoll ==> 1 <= r <= 6
  {
    if firstRoll then Min(bossRoll - 1, draw + 1) else draw + 1
  }

  /** The win test: the player wins only with a strictly higher roll. */
  function Decide(player: int, boss: int): (o: Outcome)
    ensures o == Win <==> player > boss
  {
    if player > boss then Win else Lose
  }

  /** Whatever the draws, the first roll is lost. */
  lemma FirstRollAlwaysLoses(bossDraw: int, playerDraw: int)
    requires 0 <= bossDraw < BossDrawCount(true) && 0 <= playerDraw < PlayerDrawCount(true)
    ensures var boss := BossRoll(true, bossDraw);
            var player := PlayerRoll(true, boss, playerDraw);
            1 <= player <= 4 && player < boss && Decide(player, boss) == Lose
  {
  }

  /** After the first roll both dice are fair and either side can win; a tie loses. */
  lemma LaterRollsAreOpen(bossDraw: int, playerDraw: int)
    requires 0 <= bossDraw < 6 && 0 <= playerDraw < 6
    ensures Decide(PlayerRoll(false, BossRoll(false, bossDraw), playerDraw), BossRoll(false, bossDraw)) == Win
            <==> playerDraw > bossDraw
    ensures Decide(PlayerRoll(false, BossRoll(false, 0), 5), BossRoll(false, 0)) == Win
    ensures Decide(PlayerRoll(false, BossRoll(false, 5), 0), BossRoll(false, 5)) == Lose
  {
  }

  /** `messages.filter(m => !used.includes(m))`, order kept. */
  function Unused(messages: seq<string>, used: seq<string>): (r: seq<string>)
    ensures forall m :: m in r <==> m in messages && m !in used
    decreases |messages|
  {
    if messages == [] then []
    else (if messages[0] in used then [] else [messages[0]]) + Unused(messages[1..], used)
  }

  /** The messages a defeat picks from, and the used list the pick is appended
      to: the unused messages and the used list, or, when every message is
      used, every message but the current one and the list `[current]`. */
  function DefeatChoices(messages: seq<string>, used: seq<string>, current: string): (seq<string>, seq<string>) {
    var available := Unused(messages, used);
    if |available| == 0 then (Unused(messages, [current]), [current]) else (available, used)
  }

  /** With at least two distinct messages there is always one to pick. */
  lemma DefeatChoicesNonEmpty(messages: seq<string>, used: seq<string>, current: string)
    requires |messages| >= 2 && messages[0] != messages[1]
    ensures |DefeatChoices(messages, used, current).0| >= 1
  {
    if |Unused(messages, used)| == 0 {
      var rest := Unused(messages, [current]);
      if messages[0] == current {
        assert messages[1] in rest;
      } else {
        assert messages[0] in rest;
      }
    }
  }

  /** The used list and the new message after a defeat with pick `draw`. */
  function AfterDefeat(messages: seq<string>, used: seq<string>, current: string, draw: int): (seq<string>, string)
    requires 0 <= draw < |DefeatChoices(messages, used, current).0|
  {
    var (candidates, usedBefore) := DefeatChoices(messages, used, current);
    (usedBefore + [candidates[draw]], candidates[draw])
  }

  /** The used list holds distinct messages of the list. */
  predicate UsedListOk(messages: seq<string>, used: seq<string>) {
    NoDuplicates(used) && forall m :: m in used ==> m in messages
  }

  /** A new defeat message is never one already used; once every message has
      been used, the list restarts as `[current, new]` with `new` different
      from `current`. The list stays a list of distinct messages. */
  lemma DefeatMessageIsFresh(messages: seq<string>, used: seq<string>, current: string, draw: int)
    requires 0 <= draw < |DefeatChoices(messages, used, current).0|
    requires UsedListOk(messages, used) && current in messages
    ensures var (newUsed, message) := AfterDefeat(messages, used, current, draw);
            message in messages &&
            UsedListOk(messages, newUsed) &&
            (|Unused(messages, used)| > 0 ==> message !in used && newUsed == used + [message]) &&
            (|Unused(messages, used)| == 0 ==> message != current && newUsed == [current, message])
  {
    var (candidates, usedBefore) := DefeatChoices(messages, used, current);
    var message := candidates[draw];
    assert message in candidates;
    if |Unused(messages, used)| > 0 {
      assert message !in used;
      var newUsed := used + [message];
      forall i, j | 0 <= i < j < |newUsed|
        ensures newUsed[i] != newUsed[j]
      {
        if j == |used| {
          assert newUsed[i] == used[i];
        } else {
          assert newUsed[i] == used[i] && newUsed[j] == used[j];
        }
      }
      assert forall m :: m in newUsed ==> m in used || m == message;
    } else {
      assert message != current;
    }
  }

  /** The set of elements of a duplicate-free list has as many elements as the list. */
  lemma {:induction false} DistinctCardinality(s: seq<string>)
    requires NoDuplicates(s)
    ensures |set m | m in s| == |s|
    decreases |s|
  {
    if s != [] {
      var rest := s[1..];
      assert NoDuplicates(rest) by {
        forall i, j | 0 <= i < j < |rest| ensures rest[i] != rest[j] {
          assert rest[i] == s[i + 1] && rest[j] == s[j + 1];
        }
      }
      DistinctCardinality(rest);
      assert (set m | m in s) == {s[0]} + (set m | m in rest);
      assert s[0] !in (set m | m in rest);
    }
  }

  /** The used list never grows beyond the number of distinct messages. */
  lemma UsedListBounded(messages: seq<string>, used: seq<string>)
    requires NoDuplicates(messages) && UsedListOk(messages, used)
    ensures |used| <= |messages|
  {
    DistinctCardinality(used);
    DistinctCardinality(messages);
    var a := set m | m in used;
    var b := set m | m in messages;
    assert a <= b;
    assert |a| <= |b| by {
      assert b == a + (b - a);
    }
  }

  /** The boss-fight component's state. */
  class Fight {
    /** The game context the fight reports to. */
    const game: GameContext.Game
    /** The component's `defeatMessages` list. */
    const defeatMessages: seq<string>
    var gameStage: Stage
    var playerRoll: Option<int>
    var bossRoll: Option<int>
    var result: Option<Outcome>
    var rolling: bool
    var isFirstRoll: bool
    var usedMessages: seq<string>
    var currentDefeatMessage: string
    /** The timer of the running roll's chain that is due next. */
    var step: RollStep
    /** `isFirstRoll` as the running roll's callbacks captured it. */
    var rollIsFirst: bool
    /** The running roll's local `finalBossRoll` and `finalPlayerRoll`. */
    var finalBossRoll: int
    var finalPlayerRoll: int

    ghost predicate Valid()
      reads this
    {
      |defeatMessages| >= 2 && NoDuplicates(defeatMessages) &&
      UsedListOk(defeatMessages, usedMessages) && currentDefeatMessage in defeatMessages &&
      (step == PlayerRollDue || step == ResultDue ==>
         if rollIsFirst then finalBossRoll == 5 || finalBossRoll == 6 else 1 <= finalBossRoll <= 6) &&
      (step == ResultDue ==> 1 <= finalPlayerRoll <= 6 && (rollIsFirst ==> finalPlayerRoll < finalBossRoll))
    }

    /** Mounting the component: a random initial message, which is the only
        used one, and then the reset effect, which empties the used list when
        no fight is on. */
    constructor (game: GameContext.Game, initialDraw: int)
      requires 0 <= initialDraw < |DefeatMessages|
      ensures Valid() && this.game == game && defeatMessages == DefeatMessages
      ensures gameStage == Intro && playerRoll == None && bossRoll == None && result == None
      ensures !rolling && isFirstRoll && step == Idle
      ensures currentDefeatMessage == DefeatMessages[initialDraw]
      ensures usedMessages == if game.isBossFightActive then [DefeatMessages[initialDraw]] else []
    {
      this.game := game;
      defeatMessages := DefeatMessages;
      gameStage := Intro;
      playerRoll := None;
      bossRoll := None;
      result := None;
      rolling := false;
      isFirstRoll := true;
      currentDefeatMessage := DefeatMessages[initialDraw];
      usedMessages := [DefeatMessages[initialDraw]];
      step := Idle;
      rollIsFirst := true;
      finalBossRoll := 0;
      finalPlayerRoll := 0;
      new;
      DefeatMessagesDistinct();
      if !game.isBossFightActive {
        usedMessages := [];
      }
    }

    /** The effect on `isBossFightActive`: when no fight is on, the fight
        starts over from the intro with a fresh first roll and no used messages. */
    method InactiveEffect()
      requires Valid()
      modifies this
      ensures Valid()
      ensures !game.isBossFightActive ==>
                gameStage == Intro && playerRoll == None && bossRoll == None && result == None &&
                !rolling && isFirstRoll && usedMessages == []
      ensures game.isBossFightActive ==>
                gameStage == old(gameStage) && playerRoll == old(playerRoll) && bossRoll == old(bossRoll) &&
                result == old(result) && rolling == old(rolling) && isFirstRoll == old(isFirstRoll) &&
                usedMessages == old(usedMessages)
      ensures currentDefeatMessage == old(currentDefeatMessage) && step == old(step) &&
              rollIsFirst == old(rollIsFirst) && finalBossRoll == old(finalBossRoll) &&
              finalPlayerRoll == old(finalPlayerRoll)
    {
      if !game.isBossFightActive {
        gameStage := Intro;
        playerRoll := None;
        bossRoll := None;
        result := None;
        rolling := false;
        isFirstRoll := true;
        usedMessages := [];
      }
    }

    /** `rollDice`: clear the dice and the result, enter the rolling stage and
        start the chain whose first timer settles the boss's roll. */
    method RollDice()
      requires Valid()
      modifies this
      ensures Valid()
      ensures gameStage == Rolling && rolling && playerRoll == None && bossRoll == None && result == None
      ensures step == BossRollDue && rollIsFirst == old(isFirstRoll)
      ensures isFirstRoll == old(isFirstRoll) && usedMessages == old(usedMessages) &&
              currentDefeatMessage == old(currentDefeatMessage)
    {
      rolling := true;
      playerRoll := None;
      bossRoll := None;
      result := None;
      gameStage := Rolling;
      step := BossRollDue;
      rollIsFirst := isFirstRoll;
    }

    /** `handleFight`: from the intro, or from a lost result, roll; from a won
        result, go on to the conclusion; in any other stage do nothing. */
    method HandleFight()
      requires Valid()
      modifies this
      ensures Valid()
      ensures old(gameStage) == Intro || (old(gameStage) == Result && old(result) == Some(Lose)) ==>
                gameStage == Rolling && rolling && step == BossRollDue && rollIsFirst == old(isFirstRoll) &&
                playerRoll == None && bossRoll == None && result == None
      ensures old(gameStage) == Result && old(result) == Some(Win) ==>
                gameStage == Conclusion && rolling == old(rolling) && step == old(step) &&
                result == old(result) && playerRoll == old(playerRoll) && bossRoll == old(bossRoll) &&
                rollIsFirst == old(rollIsFirst) && finalBossRoll == old(finalBossRoll) &&
                finalPlayerRoll == old(finalPlayerRoll)
      ensures old(gameStage) == Rolling || old(gameStage) == Conclusion ||
              (old(gameStage) == Result && old(result).None?) ==>
                unchanged(this)
      ensures isFirstRoll == old(isFirstRoll) && usedMessages == old(usedMessages) &&
              currentDefeatMessage == old(currentDefeatMessage)
    {
      if gameStage == Intro {
        gameStage := Rolling;
        RollDice();
      } else if gameStage == Result && result == Some(Lose) {
        RollDice();
      } else if gameStage == Result && result == Some(Win) {
        gameStage := Conclusion;
      }
    }

    /** The boss's dice settle on the final roll drawn from `draw`. */
    method FireBossRoll(draw: int)
      requires Valid() && step == BossRollDue
      requires 0 <= draw < BossDrawCount(rollIsFirst)
      modifies this
      ensures Valid()
      ensures finalBossRoll == BossRoll(old(rollIsFirst), draw) && bossRoll == Some(finalBossRoll)
      ensures step == PlayerRollDue && rollIsFirst == old(rollIsFirst)
      ensures gameStage == old(gameStage) && playerRoll == old(playerRoll) && result == old(result) &&
              rolling == old(rolling) && isFirstRoll == old(isFirstRoll) &&
              usedMessages == old(usedMessages) && currentDefeatMessage == old(currentDefeatMessage)
    {
      finalBossRoll := BossRoll(rollIsFirst, draw);
      bossRoll := Some(finalBossRoll);
      step := PlayerRollDue;
    }

    /** The player's dice settle on the final roll drawn from `draw`; a first
        roll is over. */
    method FirePlayerRoll(draw: int)
      requires Valid() && step == PlayerRollDue
      requires 0 <= draw < PlayerDrawCount(rollIsFirst)
      modifies this
      ensures Valid()
      ensures finalPlayerRoll == PlayerRoll(old(rollIsFirst), old(finalBossRoll), draw) && playerRoll == Some(finalPlayerRoll)
      ensures isFirstRoll == (old(isFirstRoll) && !rollIsFirst)
      ensures step == ResultDue && rollIsFirst == old(rollIsFirst) && finalBossRoll == old(finalBossRoll)
      ensures gameStage == old(gameStage) && bossRoll == old(bossRoll) && result == old(result) &&
              rolling == old(rolling) && usedMessages == old(usedMessages) &&
              currentDefeatMessage == old(currentDefeatMessage)
    {
      if rollIsFirst {
        finalPlayerRoll := PlayerRoll(rollIsFirst, finalBossRoll, draw);
        isFirstRoll := false;
      } else {
        finalPlayerRoll := PlayerRoll(rollIsFirst, finalBossRoll, draw);
      }
      playerRoll := Some(finalPlayerRoll);
      step := ResultDue;
    }

    /** The result shows: a strictly higher player roll wins and sets the
        game's victory flag; otherwise the roll is lost and a defeat message
        is picked with `draw` among the unused ones. A first roll is always lost. */
    method FireResult(draw: int)
      requires Valid() && step == ResultDue
      requires 0 <= draw < |DefeatChoices(defeatMessages, usedMessages, currentDefeatMessage).0|
      modifies this, game
      ensures Valid()
      ensures result == Some(Decide(finalPlayerRoll, finalBossRoll))
      ensures old(rollIsFirst) ==> result == Some(Lose)
      ensures result == Some(Win) ==>
                game.isVictory && usedMessages == old(usedMessages) &&
                currentDefeatMessage == old(currentDefeatMessage)
      ensures result == Some(Lose) ==>
                game.isVictory == old(game.isVictory) &&
                (usedMessages, currentDefeatMessage) ==
                  AfterDefeat(defeatMessages, old(usedMessages), old(currentDefeatMessage), draw)
      ensures game.State() == old(game.State()).(victory := game.isVictory)
      ensures gameStage == Result && !rolling && step == Idle
      ensures isFirstRoll == old(isFirstRoll) && playerRoll == old(playerRoll) && bossRoll == old(bossRoll)
      ensures finalPlayerRoll == old(finalPlayerRoll) && finalBossRoll == old(finalBossRoll)
    {
      if finalPlayerRoll > finalBossRoll {
        result := Some(Win);
        game.SetVictory(true);
      } else {
        result := Some(Lose);
        DefeatMessageIsFresh(defeatMessages, usedMessages, currentDefeatMessage, draw);
        var (newUsed, newMessage) := AfterDefeat(defeatMessages, usedMessages, currentDefeatMessage, draw);
        usedMessages := newUsed;
        currentDefeatMessage := newMessage;
      }
      rolling := false;
      gameStage := Result;
      step := Idle;
    }

    /** `handleCompleteReset`, offered in the conclusion: reset the game and
        go back to the default level. */
    method CompleteReset()
      modifies game, game.character
      ensures game.State() == old(game.State()).(
                level := Default, gameOver := false, holeRevealed := false, bossFight := false,
                victory := false, revealingHole := false, hasReset := true,
                resetTrigger := old(game.resetTrigger) + 1,
                pending := old(game.pending) + multiset{GameContext.ResetGuardElapsed},
                position := Pos(3, 5))
    {
      game.ResetGame();
      game.SetCurrentLevel(Default);
    }
  }
}
