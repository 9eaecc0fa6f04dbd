/**
 * The Ludo component (`Ludo.tsx`): four players with four tokens each, a
 * token track from 0 (home) to 57 (finished), entry on a six, round-robin
 * turns and a first-unfinished-token computer player.
 */
module Ludo {

  datatype PlayerColor = Red | Blue | Green | Yellow

  /** '1p-3cpu', '2p-2cpu', '3p-1cpu', 'local', or null before a mode is chosen. */
  datatype GameMode = NoMode | OneHuman | TwoHumans | ThreeHumans | Local

  datatype Player = Player(color: PlayerColor, isAI: bool, tokens: seq<int>, name: string)

  /** `diceValue`: null or the number rolled. */
  datatype Dice = NoDice | Rolled(value: int)

  datatype Winner = NoWinner | WonBy(color: PlayerColor)

  /** Home is 0, the last square 57. */
  const Finish := 57

  const Colors: seq<PlayerColor> := [Red, Blue, Green, Yellow]

  /** How many of the four seats a mode gives to people. */
  function HumanSeats(mode: GameMode): nat {
    match mode
    case NoMode => 1
    case OneHuman => 1
    case TwoHumans => 2
    case ThreeHumans => 3
    case Local => 4
  }

  function Digit(n: nat): char
    requires n <= 9
  {
    ('0' as int + n) as char
  }

  /** "Player n" for seat `i`, counting from 1. */
  function HumanName(i: nat): string
    requires i < 9
  {
    "Player " + [Digit(i + 1)]
  }

  /** "CPU n" for seat `i`: the computer seats are numbered from seat 1. */
  function CpuName(i: nat): string
    requires i <= 9
  {
    "CPU " + [Digit(i)]
  }

  lemma NameLiterals()
    ensures HumanName(0) == "Player 1" && HumanName(1) == "Player 2"
    ensures HumanName(2) == "Player 3" && HumanName(3) == "Player 4"
    ensures CpuName(1) == "CPU 1" && CpuName(2) == "CPU 2" && CpuName(3) == "CPU 3"
  {
  }

  predicate TokensInRange(tokens: seq<int>) {
    forall j :: 0 <= j < |tokens| ==> 0 <= tokens[j] <= Finish
  }

  /** The seats as `createPlayers` lays them out for `mode`. */
  predicate Seated(players: seq<Player>, mode: GameMode) {
    |players| == 4 &&
    forall i :: 0 <= i < 4 ==>
      players[i].color == Colors[i] &&
      players[i].tokens == [0, 0, 0, 0] &&
      (players[i].isAI <==> i >= HumanSeats(mode)) &&
      players[i].name == (if i < HumanSeats(mode) then HumanName(i) else CpuName(i))
  }

  /**
   * `createPlayers(mode)`: red, blue, green and yellow, all tokens at home,
   * the first `HumanSeats(mode)` seats human and named "Player n", the
   * others computer players named "CPU n".
   */
  method CreatePlayers(mode: GameMode) returns (players: seq<Player>)
    ensures Seated(players, mode)
  {
    NameLiterals();
    players := [
      Player(Red, false, [0, 0, 0, 0], "Player 1"),
      Player(Blue, true, [0, 0, 0, 0], "CPU 1"),
      Player(Green, true, [0, 0, 0, 0], "CPU 2"),
      Player(Yellow, true, [0, 0, 0, 0], "CPU 3")
    ];
    match mode {
      case NoMode =>
      case OneHuman =>
      case TwoHumans =>
        players := players[1 := players[1].(isAI := false, name := "Player 2")];
      case ThreeHumans =>
        players := players[1 := players[1].(isAI := false, name := "Player 2")];
        players := players[2 := players[2].(isAI := false, name := "Player 3")];
      case Local =>
        for index := 0 to 4
          invariant |players| == 4
          invariant forall i :: 0 <= i < 4 ==> players[i].color == Colors[i] && players[i].tokens == [0, 0, 0, 0]
          invariant forall i :: 0 <= i < index ==> !players[i].isAI && players[i].name == HumanName(i)
          invariant forall i :: index <= i < 4 ==>
            (players[i].isAI == (i != 0) &&
             players[i].name == (if i == 0 then HumanName(0) else CpuName(i)))
        {
          players := players[index := players[index].(isAI := false, name := "Player " + [Digit(index + 1)])];
        }
    }
  }

  /**
   * One token's new position after `steps`: a home token enters at 1 on a
   * six, a token on the track moves on, never past 57.
   */
  function AdvanceToken(pos: int, steps: int): (r: int)
    ensures pos == 0 ==> (r == 1 <==> steps == 6) && (r == 0 <==> steps != 6)
    ensures pos > 0 ==> r <= Finish && (r == pos + steps || r == Finish)
    ensures pos > 0 && pos + steps <= Finish ==> r == pos + steps
    ensures pos < 0 ==> r == pos
  {
    if pos == 0 && steps == 6 then 1
    else if pos > 0 then (if Finish < pos + steps then Finish else pos + steps)
    else pos
  }

  /** A roll never moves a token backwards or off the track. */
  lemma AdvanceStaysOnTrack(pos: int, steps: int)
    requires 0 <= pos <= Finish && 1 <= steps <= 6
    ensures 0 <= AdvanceToken(pos, steps) <= Finish
    ensures pos <= AdvanceToken(pos, steps)
    ensures pos == Finish ==> AdvanceToken(pos, steps) == Finish
  {
  }

  /** Player `p` after `moveToken` advanced its token `tokenIndex` by `steps`. */
  function Advanced(p: Player, tokenIndex: nat, steps: int): (q: Player)
    requires tokenIndex < |p.tokens|
    ensures q.color == p.color && q.isAI == p.isAI && q.name == p.name && |q.tokens| == |p.tokens|
    ensures q.tokens[tokenIndex] == AdvanceToken(p.tokens[tokenIndex], steps)
    ensures forall j :: 0 <= j < |p.tokens| && j != tokenIndex ==> q.tokens[j] == p.tokens[j]
  {
    p.(tokens := p.tokens[tokenIndex := AdvanceToken(p.tokens[tokenIndex], steps)])
  }

  predicate AllFinished(tokens: seq<int>) {
    forall j :: 0 <= j < |tokens| ==> tokens[j] == Finish
  }

  /** `tokens.findIndex(token => token < 57)`: the first unfinished token, or -1. */
  function FirstUnfinished(tokens: seq<int>): (r: int)
    ensures -1 <= r < |tokens|
    ensures r == -1 <==> forall j :: 0 <= j < |tokens| ==> tokens[j] >= Finish
    ensures r >= 0 ==> tokens[r] < Finish && forall j :: 0 <= j < r ==> tokens[j] >= Finish
  {
    if tokens == [] then -1
    else if tokens[0] < Finish then 0
    else
      var k := FirstUnfinished(tokens[1..]);
      if k == -1 then -1 else k + 1
  }

  /** The seat after `current` among `n` seats. */
  function NextSeat(current: nat, n: nat): (r: nat)
    requires current < n
    ensures r < n
    ensures r == current + 1 || (current == n - 1 && r == 0)
  {
    (current + 1) % n
  }

  /** The seat `k` turns after `current`. */
  function SeatAfter(current: nat, n: nat, k: nat): (r: nat)
    requires current < n
    ensures r < n
  {
    if k == 0 then current else NextSeat(SeatAfter(current, n, k - 1), n)
  }

  /** Within one round the seat index wraps past the last seat exactly once. */
  lemma {:induction false} RoundRobin(current: nat, n: nat, k: nat)
    requires current < n && k <= n
    ensures SeatAfter(current, n, k) == (if current + k < n then current + k else current + k - n)
  {
    if k > 0 {
      RoundRobin(current, n, k - 1);
    }
  }

  /** After a full round the turn is back where it started. */
  lemma FullRound(current: nat, n: nat)
    requires current < n
    ensures SeatAfter(current, n, n) == current
  {
    RoundRobin(current, n, n);
  }

  /** Every seat gets the turn within one round. */
  lemma EverySeatPlays(current: nat, n: nat, seat: nat)
    requires current < n && seat < n
    ensures exists k :: 0 <= k < n && SeatAfter(current, n, k) == seat
  {
    var k := if current <= seat then seat - current else seat + n - current;
    RoundRobin(current, n, k);
    assert SeatAfter(current, n, k) == seat;
  }

  /**
   * The token-click guard as written: the clicked token's owner is a
   * person, a roll is showing and nobody has won. It does not check that
   * the owner is the player to move.
   */
  predicate ClickGuardAsWritten(players: seq<Player>, diceValue: Dice, winner: Winner, playerIndex: nat) {
    playerIndex < |players| && !players[playerIndex].isAI &&
    diceValue.Rolled? && diceValue.value != 0 && winner == NoWinner
  }

  /** The guard as intended: the clicked token also belongs to the player to move. */
  predicate ClickGuard(players: seq<Player>, currentPlayer: nat, diceValue: Dice, winner: Winner, playerIndex: nat) {
    ClickGuardAsWritten(players, diceValue, winner, playerIndex) && playerIndex == currentPlayer
  }

  /**
   * The seats after a click on token `tokenIndex` of seat `playerIndex`, as
   * written: once the guard passes, `moveToken` advances that token of the
   * player to move, not of the clicked seat.
   */
  function ClickAsWritten(players: seq<Player>, currentPlayer: nat, diceValue: Dice, winner: Winner,
                          playerIndex: nat, tokenIndex: nat): (after: seq<Player>)
    requires currentPlayer < |players| && tokenIndex < |players[currentPlayer].tokens|
    ensures !ClickGuardAsWritten(players, diceValue, winner, playerIndex) ==> after == players
    ensures ClickGuardAsWritten(players, diceValue, winner, playerIndex) ==>
      |after| == |players| &&
      after[currentPlayer] == Advanced(players[currentPlayer], tokenIndex, diceValue.value) &&
      forall i :: 0 <= i < |players| && i != currentPlayer ==> after[i] == players[i]
  {
    if ClickGuardAsWritten(players, diceValue, winner, playerIndex)
    then players[currentPlayer := Advanced(players[currentPlayer], tokenIndex, diceValue.value)]
    else players
  }

  /** The seats of '1p-3cpu' as `createPlayers` lays them out. */
  const OneHumanSeats: seq<Player> := [
    Player(Red, false, [0, 0, 0, 0], "Player 1"),
    Player(Blue, true, [0, 0, 0, 0], "CPU 1"),
    Player(Green, true, [0, 0, 0, 0], "CPU 2"),
    Player(Yellow, true, [0, 0, 0, 0], "CPU 3")
  ]

  /**
   * In '1p-3cpu' with the computer (seat 1) to move and a six showing, the
   * written guard accepts a click on the person's red token, and the move
   * that follows brings the computer's blue token onto the board while the
   * red one stays home. The corrected guard refuses the click.
   */
  lemma ClickMovesAnotherPlayersToken()
    ensures Seated(OneHumanSeats, OneHuman)
    ensures OneHumanSeats[1].isAI && !OneHumanSeats[0].isAI
    ensures ClickGuardAsWritten(OneHumanSeats, Rolled(6), NoWinner, 0)
    ensures var after := ClickAsWritten(OneHumanSeats, 1, Rolled(6), NoWinner, 0, 0);
      after[1].tokens[0] == 1 && after[0] == OneHumanSeats[0]
    ensures !ClickGuard(OneHumanSeats, 1, Rolled(6), NoWinner, 0)
  {
    NameLiterals();
  }

  /**
   * After an accepted click on a roll other than six, the roll keeps showing
   * until the scheduled `nextTurn` runs, so a second click by the same player
   * passes the guard again (unless the first move won) and moves with the
   * same roll; each move schedules its own `nextTurn`.
   */
  lemma SecondClickAccepted(players: seq<Player>, currentPlayer: nat, diceValue: Dice,
                            playerIndex: nat, tokenIndex: nat)
    requires ClickGuard(players, currentPlayer, diceValue, NoWinner, playerIndex)
    requires tokenIndex < |players[playerIndex].tokens| && diceValue != Rolled(6)
    requires !AllFinished(Advanced(players[playerIndex], tokenIndex, diceValue.value).tokens)
    ensures ClickGuard(players[playerIndex := Advanced(players[playerIndex], tokenIndex, diceValue.value)],
                       currentPlayer, diceValue, NoWinner, playerIndex)
  {
  }

  class Game {
    var gameMode: GameMode
    /** `gameState !== null`. */
    var started: bool
    var players: seq<Player>
    var currentPlayer: nat
    var diceValue: Dice
    var winner: Winner

    /** While a game is on: four seats in colour order, four tokens each, all on 0..57. */
    ghost predicate Valid()
      reads this
    {
      started ==>
        |players| == 4 && currentPlayer < 4 &&
        (diceValue.Rolled? ==> 1 <= diceValue.value <= 6) &&
        forall i :: 0 <= i < 4 ==>
          players[i].color == Colors[i] && |players[i].tokens| == 4 && TokensInRange(players[i].tokens)
    }

    constructor ()
      ensures gameMode == NoMode && !started
      ensures Valid()
    {
      gameMode := NoMode;
      started := false;
      players := [];
      currentPlayer := 0;
      diceValue := NoDice;
      winner := NoWinner;
    }

    /** `startGame(mode)`. */
    method StartGame(mode: GameMode)
      modifies this
      ensures gameMode == mode && started && Seated(players, mode)
      ensures currentPlayer == 0 && diceValue == NoDice && winner == NoWinner
      ensures Valid()
    {
      gameMode := mode;
      players := CreatePlayers(mode);
      currentPlayer := 0;
      diceValue := NoDice;
      winner := NoWinner;
      started := true;
    }

    /** `resetGame()`. */
    method ResetGame()
      modifies this
      ensures gameMode == NoMode && !started
      ensures Valid()
    {
      gameMode := NoMode;
      started := false;
    }

    /**
     * `rollDice()` with the draw `roll`; the computer's reply that it starts
     * is the separate transition `MakeAIMove`.
     */
    method RollDice(roll: int)
      requires Valid() && 1 <= roll <= 6
      modifies this
      ensures Valid()
      ensures !old(started) ==> diceValue == old(diceValue)
      ensures old(started) ==> diceValue == Rolled(roll)
      ensures players == old(players) && currentPlayer == old(currentPlayer) && winner == old(winner)
      ensures started == old(started) && gameMode == old(gameMode)
    {
      if !started {
        return;
      }
      diceValue := Rolled(roll);
    }

    /** `nextTurn()`: a no-op without a game. */
    method NextTurn()
      requires Valid()
      modifies this
      ensures Valid()
      ensures players == old(players) && winner == old(winner) && started == old(started) && gameMode == old(gameMode)
      ensures old(started) ==> currentPlayer == NextSeat(old(currentPlayer), 4) && diceValue == NoDice
      ensures !old(started) ==> currentPlayer == old(currentPlayer) && diceValue == old(diceValue)
    {
      if started {
        currentPlayer := (currentPlayer + 1) % |players|;
        diceValue := NoDice;
      }
    }

    /**
     * `moveToken(tokenIndex, steps)`: the chosen token of the player to move
     * advances and the player wins when all four tokens are at 57. On a six
     * the roll is cleared at once and the same player rolls again; otherwise
     * the turn change is the `nextTurn` callback scheduled 500 ms later,
     * which is the separate transition `NextTurn`, so until it runs the turn
     * and the roll stay as they were.
     */
    method MoveToken(tokenIndex: nat, steps: int)
      requires Valid() && tokenIndex < 4 && 1 <= steps <= 6
      modifies this
      ensures Valid()
      ensures !old(started) ==>
        players == old(players) && currentPlayer == old(currentPlayer) &&
        diceValue == old(diceValue) && winner == old(winner)
      ensures old(started) ==>
        var p := old(players[currentPlayer]);
        var q := Advanced(p, tokenIndex, steps);
        players == old(players)[old(currentPlayer) := q] &&
        winner == (if AllFinished(q.tokens) then WonBy(p.color) else old(winner)) &&
        currentPlayer == old(currentPlayer) &&
        diceValue == (if old(diceValue) == Rolled(6) then NoDice else old(diceValue))
      ensures started == old(started) && gameMode == old(gameMode)
    {
      if !started {
        return;
      }
      var currentPlayerIndex := currentPlayer;
      var newTokens := players[currentPlayerIndex].tokens;
      if newTokens[tokenIndex] == 0 && steps == 6 {
        newTokens := newTokens[tokenIndex := 1];
      } else if newTokens[tokenIndex] > 0 {
        newTokens := newTokens[tokenIndex := if Finish < newTokens[tokenIndex] + steps then Finish else newTokens[tokenIndex] + steps];
      }
      assert newTokens == Advanced(old(players[currentPlayer]), tokenIndex, steps).tokens;
      players := players[currentPlayerIndex := players[currentPlayerIndex].(tokens := newTokens)];
      if forall j :: 0 <= j < |newTokens| ==> newTokens[j] == Finish {
        winner := WonBy(players[currentPlayerIndex].color);
      }
      if diceValue == Rolled(6) {
        diceValue := NoDice;
      }
    }

    /**
     * `makeAIMove(diceValue)`: the first token below 57 moves as in
     * `MoveToken`, and when every token is finished the turn passes at once.
     */
    method MakeAIMove(roll: int)
      requires Valid() && 1 <= roll <= 6
      modifies this
      ensures Valid()
      ensures old(started) && FirstUnfinished(old(players[currentPlayer].tokens)) == -1 ==>
        players == old(players) && winner == old(winner) &&
        currentPlayer == NextSeat(old(currentPlayer), 4) && diceValue == NoDice
      ensures old(started) && FirstUnfinished(old(players[currentPlayer].tokens)) >= 0 ==>
        var p := old(players[currentPlayer]);
        var q := Advanced(p, FirstUnfinished(p.tokens), roll);
        players == old(players)[old(currentPlayer) := q] &&
        winner == (if AllFinished(q.tokens) then WonBy(p.color) else old(winner)) &&
        currentPlayer == old(currentPlayer) &&
        diceValue == (if old(diceValue) == Rolled(6) then NoDice else old(diceValue))
      ensures !old(started) ==>
        players == old(players) && currentPlayer == old(currentPlayer) &&
        diceValue == old(diceValue) && winner == old(winner)
      ensures started == old(started) && gameMode == old(gameMode)
    {
      if !started {
        return;
      }
      var tokenIndex := FirstUnfinished(players[currentPlayer].tokens);
      if tokenIndex != -1 {
        MoveToken(tokenIndex, roll);
      } else {
        NextTurn();
      }
    }

    /**
     * A click on token `tokenIndex` of seat `playerIndex`, with the guard
     * `ClickGuard`: the token moves by the roll showing, with the winner
     * and roll update of `moveToken`.
     */
    method ClickToken(playerIndex: nat, tokenIndex: nat)
      requires Valid() && tokenIndex < 4
      modifies this
      ensures Valid()
      ensures !(old(started) && ClickGuard(old(players), old(currentPlayer), old(diceValue), old(winner), playerIndex)) ==>
        players == old(players) && currentPlayer == old(currentPlayer) &&
        diceValue == old(diceValue) && winner == old(winner)
      ensures old(started) && ClickGuard(old(players), old(currentPlayer), old(diceValue), old(winner), playerIndex) ==>
        var p := old(players[playerIndex]);
        var q := Advanced(p, tokenIndex, old(diceValue).value);
        players == old(players)[playerIndex := q] &&
        winner == (if AllFinished(q.tokens) then WonBy(p.color) else old(winner)) &&
        currentPlayer == playerIndex &&
        diceValue == (if old(diceValue) == Rolled(6) then NoDice else old(diceValue))
      ensures started == old(started) && gameMode == old(gameMode)
    {
      if started && ClickGuard(players, currentPlayer, diceValue, winner, playerIndex) {
        MoveToken(tokenIndex, diceValue.value);
      }
    }
  }
}
