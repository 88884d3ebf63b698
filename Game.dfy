/**
 * The round/game state machine of the game manager. The manager owns a fixed
 * array of tank records and runs rounds of three phases, RoundStarting,
 * RoundPlaying and RoundEnding, until one tank has won the configured number
 * of rounds; then the scene is reloaded and this manager's game is over.
 *
 * The source runs the phases as coroutines that wait for a delay or for the
 * next frame. Here each resumption is one method call, and `phase` records
 * where the game loop stands between calls.
 */
module Game {
  import opened Wrappers
  import opened Tanks
  import opened Messages

  /**
   * Starting: RoundStarting runs next.  Playing: the start delay is over and
   * RoundPlaying begins next.  Polling: RoundPlaying waits frame by frame for
   * one tank left.  Ending: RoundEnding runs next.  Ended: the end delay is
   * over and the game loop decides.  Over: the scene reload ended this game.
   */
  datatype Phase = Starting | Playing | Polling | Ending | Ended | Over

  class GameManager {
    /** The fixed pieces of the messages this manager shows. */
    const wording: Wording
    /** Rounds a single tank has to win to win the game. */
    const numRoundsToWin: int
    /** The tank managers, one per configured player. */
    const tanks: array<Tank>

    var roundNumber: nat
    var roundWinner: Option<nat>
    var gameWinner: Option<nat>
    /** The overlay text. */
    var message: string
    var phase: Phase

    /**
     * The manager's invariant: the winner references point into the array
     * (the game winner at a tank with exactly the threshold of wins), the
     * control flags are what the phase says, there is a game winner only once
     * a round has ended, and with a positive threshold no tank's wins ever
     * pass the threshold, and stay below it while there is no game winner.
     */
    ghost predicate Valid()
      reads this, tanks
    {
      && (roundWinner.Some? ==> roundWinner.value < tanks.Length)
      && (gameWinner.Some? ==> gameWinner.value < tanks.Length && tanks[gameWinner.value].wins == numRoundsToWin)
      && (phase.Playing? || phase.Ended? || phase.Over? ==> AllControl(tanks[..], false))
      && (phase.Polling? || phase.Ending? ==> AllControl(tanks[..], true))
      && (phase.Over? ==> gameWinner.Some?)
      && (!phase.Ended? && !phase.Over? ==> gameWinner.None?)
      && (numRoundsToWin >= 1 ==> forall i :: 0 <= i < tanks.Length ==> tanks[i].wins <= numRoundsToWin)
      && (numRoundsToWin >= 1 && gameWinner.None? ==>
            forall i :: 0 <= i < tanks.Length ==> tanks[i].wins < numRoundsToWin)
    }

    /**
     * Start: the configured tank managers (given by their player texts) are
     * spawned, no round has been played and no tank has any wins.
     */
    constructor (playerTexts: seq<string>, numRoundsToWin: int, wording: Wording)
      ensures Valid() && fresh(tanks)
      ensures tanks.Length == |playerTexts|
      ensures forall i :: 0 <= i < |playerTexts| ==> tanks[i] == Tank(playerTexts[i], i + 1, 0, true, false)
      ensures this.numRoundsToWin == numRoundsToWin && this.wording == wording
      ensures roundNumber == 0 && roundWinner == None && gameWinner == None
      ensures message == "" && phase == Starting
    {
      this.wording := wording;
      this.numRoundsToWin := numRoundsToWin;
      tanks := new Tank[|playerTexts|](i => Tank(if 0 <= i < |playerTexts| then playerTexts[i] else "", 0, 0, false, false));
      roundNumber := 0;
      roundWinner := None;
      gameWinner := None;
      message := "";
      phase := Starting;
      new;
      SpawnAllTanks();
    }

    /**
     * Instantiates every tank (its instance is active) and numbers the
     * players 1 to N in array order, so the numbers are distinct.
     */
    method SpawnAllTanks()
      modifies tanks
      ensures forall i :: 0 <= i < tanks.Length ==>
                tanks[i] == old(tanks[i]).(playerNumber := i + 1, active := true)
      ensures forall i, j :: 0 <= i < j < tanks.Length ==> tanks[i].playerNumber != tanks[j].playerNumber
      ensures forall i :: 0 <= i < tanks.Length ==> 1 <= tanks[i].playerNumber <= tanks.Length
    {
      for i := 0 to tanks.Length
        invariant forall k :: 0 <= k < i ==> tanks[k] == old(tanks[k]).(playerNumber := k + 1, active := true)
        invariant forall k :: i <= k < tanks.Length ==> tanks[k] == old(tanks[k])
      {
        tanks[i] := tanks[i].(playerNumber := i + 1, active := true);
      }
    }

    /** Turns every tank back on; nothing else about a tank changes. */
    method ResetAllTanks()
      modifies tanks
      ensures forall i :: 0 <= i < tanks.Length ==> tanks[i] == old(tanks[i]).(active := true)
    {
      for i := 0 to tanks.Length
        invariant forall k :: 0 <= k < i ==> tanks[k] == old(tanks[k]).(active := true)
        invariant forall k :: i <= k < tanks.Length ==> tanks[k] == old(tanks[k])
      {
        tanks[i] := tanks[i].(active := true);
      }
    }

    /** Sets every tank's control flag to `on`; nothing else about a tank changes. */
    method SetTankControl(on: bool)
      modifies tanks
      ensures forall i :: 0 <= i < tanks.Length ==> tanks[i] == old(tanks[i]).(controlEnabled := on)
      ensures AllControl(tanks[..], on)
    {
      for i := 0 to tanks.Length
        invariant forall k :: 0 <= k < i ==> tanks[k] == old(tanks[k]).(controlEnabled := on)
        invariant forall k :: i <= k < tanks.Length ==> tanks[k] == old(tanks[k])
      {
        tanks[i] := tanks[i].(controlEnabled := on);
      }
    }

    /** Lets the players drive every tank. */
    method EnableTankControl()
      modifies tanks
      ensures forall i :: 0 <= i < tanks.Length ==> tanks[i] == old(tanks[i]).(controlEnabled := true)
      ensures AllControl(tanks[..], true)
    {
      SetTankControl(true);
    }

    /** Stops the players from driving any tank. */
    method DisableTankControl()
      modifies tanks
      ensures forall i :: 0 <= i < tanks.Length ==> tanks[i] == old(tanks[i]).(controlEnabled := false)
      ensures AllControl(tanks[..], false)
    {
      SetTankControl(false);
    }

    /** True when one or fewer tank instances are still active. */
    method OneTankLeft() returns (b: bool)
      ensures b <==> CountActive(tanks[..]) <= 1
      ensures b <==> NoTwoActive(tanks[..])
    {
      var numTanksLeft := 0;
      for i := 0 to tanks.Length
        invariant numTanksLeft == CountActive(tanks[..i])
      {
        assert tanks[..i + 1][..i] == tanks[..i];
        if tanks[i].active {
          numTanksLeft := numTanksLeft + 1;
        }
      }
      assert tanks[..tanks.Length] == tanks[..];
      AtMostOneActive(tanks[..]);
      b := numTanksLeft <= 1;
    }

    /** The lowest-index active tank, or None (a draw) when none is active. */
    method GetRoundWinner() returns (r: Option<nat>)
      ensures r == FirstActive(tanks[..])
    {
      for i := 0 to tanks.Length
        invariant forall j :: 0 <= j < i ==> !tanks[j].active
      {
        if tanks[i].active {
          return Some(i);
        }
      }
      return None;
    }

    /** The lowest-index tank whose wins equal the threshold, or None. */
    method GetGameWinner() returns (r: Option<nat>)
      ensures r == FirstWithWins(tanks[..], numRoundsToWin)
    {
      for i := 0 to tanks.Length
        invariant forall j :: 0 <= j < i ==> tanks[j].wins != numRoundsToWin
      {
        if tanks[i].wins == numRoundsToWin {
          return Some(i);
        }
      }
      return None;
    }

    /**
     * The message for the end of a round: the game winner's announcement if
     * there is one, else the headline, the line breaks and one score line per
     * tank in array order.
     */
    method EndMessage() returns (msg: string)
      requires roundWinner.Some? ==> roundWinner.value < tanks.Length
      requires gameWinner.Some? ==> gameWinner.value < tanks.Length
      ensures msg == EndText(wording, tanks[..], roundWinner, gameWinner)
    {
      msg := wording.draw;
      if roundWinner.Some? {
        msg := tanks[roundWinner.value].playerText + wording.winsRound;
      }
      msg := msg + LineBreaks;
      ghost var head := msg;
      for i := 0 to tanks.Length
        invariant msg == head + Scoreboard(wording, tanks[..i])
      {
        assert tanks[..i + 1][..i] == tanks[..i];
        msg := msg + ScoreLine(wording, tanks[i]);
      }
      assert tanks[..tanks.Length] == tanks[..];
      if gameWinner.Some? {
        msg := tanks[gameWinner.value].playerText + wording.winsGame;
      }
    }

    /**
     * RoundStarting: every tank is reset and loses control, the round number
     * goes up by one and the banner shows it.
     */
    method RoundStarting()
      requires Valid() && phase == Starting
      modifies this, tanks
      ensures Valid() && phase == Playing
      ensures roundNumber == old(roundNumber) + 1
      ensures message == RoundText(roundNumber)
      ensures forall i :: 0 <= i < tanks.Length ==>
                tanks[i] == old(tanks[i]).(active := true, controlEnabled := false)
      ensures roundWinner == old(roundWinner) && gameWinner == old(gameWinner)
    {
      ResetAllTanks();
      DisableTankControl();
      roundNumber := roundNumber + 1;
      message := RoundText(roundNumber);
      phase := Playing;
    }

    /**
     * RoundPlaying, on entry: the players get control, the banner is cleared
     * and the loop condition is tested once before the first frame wait, so
     * the round moves straight on to RoundEnding when at most one tank is
     * active already.
     */
    method RoundPlaying()
      requires Valid() && phase == Playing
      modifies this, tanks
      ensures Valid()
      ensures phase == (if CountActive(tanks[..]) <= 1 then Ending else Polling)
      ensures message == ""
      ensures forall i :: 0 <= i < tanks.Length ==> tanks[i] == old(tanks[i]).(controlEnabled := true)
      ensures roundNumber == old(roundNumber)
      ensures roundWinner == old(roundWinner) && gameWinner == old(gameWinner)
    {
      EnableTankControl();
      message := "";
      phase := Polling;
      var done := OneTankLeft();
      if done {
        phase := Ending;
      }
    }

    /**
     * One frame of RoundPlaying's wait: the round moves on to RoundEnding
     * exactly when at most one tank is left; otherwise it waits another frame.
     */
    method RoundPlayingFrame()
      requires Valid() && phase == Polling
      modifies this
      ensures Valid()
      ensures phase == (if CountActive(tanks[..]) <= 1 then Ending else Polling)
      ensures roundNumber == old(roundNumber) && message == old(message)
      ensures roundWinner == old(roundWinner) && gameWinner == old(gameWinner)
    {
      var done := OneTankLeft();
      if done {
        phase := Ending;
      }
    }

    /**
     * A tank is destroyed during play and its instance deactivated. This is
     * the effect of the tank's health component, which is outside this model.
     */
    method Eliminate(k: nat)
      requires Valid() && phase == Polling && k < tanks.Length
      modifies tanks
      ensures Valid()
      ensures forall i :: 0 <= i < tanks.Length ==>
                tanks[i] == if i == k then old(tanks[i]).(active := false) else old(tanks[i])
    {
      tanks[k] := tanks[k].(active := false);
    }

    /**
     * RoundEnding: control is taken away, the first active tank (if any) wins
     * the round and is credited one win (`Tallied`), the game winner is the
     * first tank at the threshold, and the message announces the outcome.
     */
    method RoundEnding()
      requires Valid() && phase == Ending
      modifies this, tanks
      ensures Valid() && phase == Ended
      ensures roundWinner == FirstActive(old(tanks[..]))
      ensures tanks[..] == Tallied(old(tanks[..]))
      ensures gameWinner == FirstWithWins(tanks[..], numRoundsToWin)
      ensures message == EndText(wording, tanks[..], roundWinner, gameWinner)
      ensures roundNumber == old(roundNumber)
    {
      ghost var before := tanks[..];
      TallyRound();
      TalliedControl(before);
      if numRoundsToWin >= 1 {
        TalliedKeepsBound(before, numRoundsToWin);
      }
      Announce();
      phase := Ended;
    }

    /**
     * The second part of RoundEnding: the game winner is the first tank at
     * the threshold, and the end message is built and shown.
     */
    method Announce()
      requires roundWinner.Some? ==> roundWinner.value < tanks.Length
      modifies this`gameWinner, this`message
      ensures gameWinner == FirstWithWins(tanks[..], numRoundsToWin)
      ensures message == EndText(wording, tanks[..], roundWinner, gameWinner)
    {
      gameWinner := GetGameWinner();
      message := EndMessage();
    }

    /**
     * The first part of RoundEnding: control is taken away, the round winner
     * is cleared and found again, and it is credited with one win.
     */
    method TallyRound()
      modifies this`roundWinner, tanks
      ensures roundWinner == FirstActive(old(tanks[..]))
      ensures tanks[..] == Tallied(old(tanks[..]))
    {
      ghost var before := tanks[..];
      DisableTankControl();
      assert tanks[..] == WithoutControl(before);
      roundWinner := None;
      roundWinner := GetRoundWinner();
      SameActiveSameWinner(before, tanks[..]);
      if roundWinner.Some? {
        AddWin(roundWinner.value);
      }
    }

    /** `m_Wins++` on tank k. */
    method AddWin(k: nat)
      requires k < tanks.Length
      modifies tanks
      ensures tanks[..] == Credit(old(tanks[..]), k)
    {
      tanks[k] := tanks[k].(wins := tanks[k].wins + 1);
    }

    /**
     * One resumption of the game loop: it runs the phase the loop is waiting
     * in and passes on that phase's outcome. After RoundEnding the game is
     * over exactly when there is a game winner; otherwise a new round starts.
     */
    method GameLoopStep()
      requires Valid() && phase != Over
      modifies this, tanks
      ensures Valid()
      ensures old(phase) == Starting ==>
                phase == Playing && roundNumber == old(roundNumber) + 1 && message == RoundText(roundNumber) &&
                (forall i :: 0 <= i < tanks.Length ==> tanks[i] == old(tanks[i]).(active := true, controlEnabled := false)) &&
                roundWinner == old(roundWinner) && gameWinner == old(gameWinner)
      ensures old(phase) == Playing ==>
                phase == (if CountActive(tanks[..]) <= 1 then Ending else Polling) && message == "" &&
                (forall i :: 0 <= i < tanks.Length ==> tanks[i] == old(tanks[i]).(controlEnabled := true)) &&
                roundWinner == old(roundWinner) && gameWinner == old(gameWinner)
      ensures old(phase) == Polling ==>
                phase == (if CountActive(tanks[..]) <= 1 then Ending else Polling) &&
                tanks[..] == old(tanks[..]) && message == old(message) &&
                roundWinner == old(roundWinner) && gameWinner == old(gameWinner)
      ensures old(phase) == Ending ==>
                phase == Ended && roundWinner == FirstActive(old(tanks[..])) && tanks[..] == Tallied(old(tanks[..])) &&
                gameWinner == FirstWithWins(tanks[..], numRoundsToWin) &&
                message == EndText(wording, tanks[..], roundWinner, gameWinner)
      ensures old(phase) == Ended ==> (phase == Over <==> gameWinner.Some?) && (phase == Starting <==> gameWinner.None?)
      ensures old(phase) == Ended ==>
                tanks[..] == old(tanks[..]) && message == old(message) &&
                roundWinner == old(roundWinner) && gameWinner == old(gameWinner)
      ensures !old(phase).Starting? ==> roundNumber == old(roundNumber)
      ensures forall i :: 0 <= i < tanks.Length ==> tanks[i].wins >= old(tanks[i].wins)
    {
      match phase
      case Starting => RoundStarting();
      case Playing => RoundPlaying();
      case Polling => RoundPlayingFrame();
      case Ending =>
        ghost var before := tanks[..];
        RoundEnding();
        TalliedWinsGrow(before);
      case Ended =>
        if gameWinner.Some? {
          phase := Over;
        } else {
          phase := Starting;
        }
    }
  }
}
