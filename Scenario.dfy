/**
 * Whole games driven through the manager's game loop. In the first, two
 * tanks A and B play to a threshold of two rounds; B is destroyed in both
 * rounds, so A wins round one, then round two and with it the game. In the
 * second, a single tank is alone from the start and wins at once.
 */
module Scenario {
  import opened Wrappers
  import opened Tanks
  import opened Messages
  import opened Game

  /**
   * The first three resumptions of a round's loop with two tanks, tank 1
   * being destroyed while the round is played: the round is then ready to end.
   */
  method PlayUntilSecondTankFalls(gm: GameManager)
    requires gm.Valid() && gm.phase == Starting && gm.tanks.Length == 2
    modifies gm, gm.tanks
    ensures gm.Valid() && gm.phase == Ending
    ensures gm.roundNumber == old(gm.roundNumber) + 1
    ensures gm.gameWinner == old(gm.gameWinner)
    ensures gm.tanks[0] == old(gm.tanks[0]).(active := true, controlEnabled := true)
    ensures gm.tanks[1] == old(gm.tanks[1]).(active := false, controlEnabled := true)
  {
    gm.GameLoopStep();
    gm.GameLoopStep();
    assert gm.phase == Polling;
    gm.Eliminate(1);
    gm.GameLoopStep();
  }

  /** One round of a two-tank game, run by the game loop, in which tank 1 is destroyed. */
  method SecondTankLosesRound(gm: GameManager)
    requires gm.Valid() && gm.phase == Starting && gm.tanks.Length == 2
    modifies gm, gm.tanks
    ensures gm.Valid() && gm.phase == Ended
    ensures gm.roundNumber == old(gm.roundNumber) + 1
    ensures gm.roundWinner == Some(0)
    ensures gm.gameWinner == FirstWithWins(gm.tanks[..], gm.numRoundsToWin)
    ensures gm.message == EndText(gm.wording, gm.tanks[..], gm.roundWinner, gm.gameWinner)
    ensures gm.tanks[0] == old(gm.tanks[0]).(active := true, controlEnabled := false, wins := old(gm.tanks[0].wins) + 1)
    ensures gm.tanks[1] == old(gm.tanks[1]).(active := false, controlEnabled := false)
  {
    PlayUntilSecondTankFalls(gm);
    ghost var before := gm.tanks[..];
    gm.GameLoopStep();
    TalliedCredit(before);
  }

  /** Round one of the two-tank game: A wins the round and the game goes on. */
  method FirstRound() returns (gm: GameManager)
    ensures fresh(gm) && fresh(gm.tanks)
    ensures gm.Valid() && gm.phase == Ended && gm.numRoundsToWin == 2 && gm.wording == TutorialWording
    ensures gm.tanks.Length == 2
    ensures gm.tanks[0] == Tank("A", 1, 1, true, false) && gm.tanks[1] == Tank("B", 2, 0, false, false)
    ensures gm.gameWinner == None
    ensures |gm.message| >= 17 && gm.message[..17] == "A WINS THE ROUND!"
  {
    gm := new GameManager(["A", "B"], 2, TutorialWording);
    SecondTankLosesRound(gm);
    ghost var tanks := gm.tanks[..];
    assert tanks == [Tank("A", 1, 1, true, false), Tank("B", 2, 0, false, false)];
    assert gm.gameWinner == None;
    RoundWinHeadline();
    EndTextOpensWithHeadline(gm.wording, tanks, gm.roundWinner);
  }

  method TwoRoundGame() {
    var gm := FirstRound();
    gm.GameLoopStep();
    assert gm.phase == Starting;
    SecondTankLosesRound(gm);
    assert gm.tanks[0].wins == 2;
    assert gm.gameWinner == Some(0);
    assert gm.tanks[..][0].playerText == "A";
    assert gm.message == "A" + TutorialWording.winsGame;
    assert gm.message == "A WINS THE GAME!";
    gm.GameLoopStep();
    assert gm.phase == Over;
  }

  /**
   * A single tank, threshold one, author's wording: the round starts, and as
   * the tank is alone it moves on to RoundEnding without waiting a frame.
   */
  method LoneTankAlone() returns (gm: GameManager)
    ensures fresh(gm) && fresh(gm.tanks)
    ensures gm.Valid() && gm.phase == Ending && gm.numRoundsToWin == 1 && gm.wording == AuthorWording
    ensures gm.tanks.Length == 1 && gm.tanks[0] == Tank("A", 1, 0, true, true)
  {
    gm := new GameManager(["A"], 1, AuthorWording);
    gm.GameLoopStep();
    gm.GameLoopStep();
  }

  /** The lone tank wins the round and, with it, the game. */
  method LoneTankRound() returns (gm: GameManager)
    ensures fresh(gm) && fresh(gm.tanks)
    ensures gm.Valid() && gm.phase == Ended && gm.tanks.Length == 1
    ensures gm.roundWinner == Some(0) && gm.tanks[0].wins == 1
    ensures gm.gameWinner == Some(0)
    ensures gm.message == "A WINS THE GAME !"
  {
    gm := LoneTankAlone();
    ghost var before := gm.tanks[..];
    gm.GameLoopStep();
    TalliedCredit(before);
  }

  method LoneTankGame() {
    var gm := LoneTankRound();
    gm.GameLoopStep();
    assert gm.phase == Over;
  }
}
