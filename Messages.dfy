/**
 * The overlay texts the game manager shows: the round banner and the end of
 * round message. The two game managers build them identically and differ
 * only in their wording, which is a `Wording` value here.
 */
module Messages {
  import opened Wrappers
  import opened Text
  import opened Tanks

  /**
   * The fixed pieces of the end-of-round text: the draw headline, the suffix
   * after a round winner's text, the separator between a tank's text and its
   * win count, the suffix after a win count (ending the line) and the suffix
   * after the game winner's text.
   */
  datatype Wording = Wording(draw: string, winsRound: string, separator: string, winsSuffix: string, winsGame: string)

  /** Wording of the tutorial's completed game manager. */
  const TutorialWording := Wording("DRAW!", " WINS THE ROUND!", ": ", " WINS\n", " WINS THE GAME!")

  /** Wording of the author's own game manager. */
  const AuthorWording := Wording("DRAW !", " WINS THE ROUND !", " : ", " WINS \n", " WINS THE GAME !")

  /** Line breaks between the headline and the score lines. */
  const LineBreaks := "\n\n\n\n"

  /** The banner shown while a round starts. */
  function RoundText(n: nat): (t: string)
    ensures |t| > 6 && t[..6] == "ROUND "
    ensures forall i :: 6 <= i < |t| ==> IsDigit(t[i])
    ensures ParseNat(t[6..]) == n
  {
    ParseNatToString(n);
    "ROUND " + NatToString(n)
  }

  /** One tank's score line: its text, the separator, its wins, the line end. */
  function ScoreLine(w: Wording, t: Tank): string {
    t.playerText + w.separator + NatToString(t.wins) + w.winsSuffix
  }

  /** The score lines of all tanks, one after another in array order. */
  function Scoreboard(w: Wording, s: seq<Tank>): string {
    if s == [] then "" else Scoreboard(w, s[..|s| - 1]) + ScoreLine(w, s[|s| - 1])
  }

  /** The first part of a round's message: a draw, or who won the round. */
  function Headline(w: Wording, s: seq<Tank>, roundWinner: Option<nat>): string
    requires roundWinner.Some? ==> roundWinner.value < |s|
  {
    match roundWinner
    case None => w.draw
    case Some(k) => s[k].playerText + w.winsRound
  }

  /**
   * The message at the end of a round: the game winner's announcement alone
   * when there is a game winner; otherwise the headline, the line breaks and
   * every tank's score line.
   */
  function EndText(w: Wording, s: seq<Tank>, roundWinner: Option<nat>, gameWinner: Option<nat>): string
    requires roundWinner.Some? ==> roundWinner.value < |s|
    requires gameWinner.Some? ==> gameWinner.value < |s|
  {
    match gameWinner
    case Some(g) => s[g].playerText + w.winsGame
    case None => Headline(w, s, roundWinner) + LineBreaks + Scoreboard(w, s)
  }

  /** The scoreboard of two runs of tanks is the two scoreboards joined. */
  lemma {:induction false} ScoreboardAppend(w: Wording, a: seq<Tank>, b: seq<Tank>)
    ensures Scoreboard(w, a + b) == Scoreboard(w, a) + Scoreboard(w, b)
    decreases |b|
  {
    if b == [] {
      assert a + b == a;
    } else {
      var ab := a + b;
      assert ab[..|ab| - 1] == a + b[..|b| - 1];
      assert ab[|ab| - 1] == b[|b| - 1];
      ScoreboardAppend(w, a, b[..|b| - 1]);
    }
  }

  /**
   * Tank i's score line sits in the scoreboard right after the lines of the
   * tanks before it and right before the lines of the tanks after it.
   */
  lemma ScoreboardLineAt(w: Wording, s: seq<Tank>, i: nat)
    requires i < |s|
    ensures Scoreboard(w, s) == Scoreboard(w, s[..i]) + ScoreLine(w, s[i]) + Scoreboard(w, s[i + 1..])
  {
    assert s == s[..i] + [s[i]] + s[i + 1..];
    ScoreboardAppend(w, s[..i] + [s[i]], s[i + 1..]);
    ScoreboardAppend(w, s[..i], [s[i]]);
    assert Scoreboard(w, [s[i]]) == ScoreLine(w, s[i]) by {
      assert [s[i]][..0] == [];
    }
  }

  /** A score line gives back the tank's win count between its separator and its line end. */
  lemma ScoreLineReadsBack(w: Wording, t: Tank)
    ensures var line := ScoreLine(w, t);
            var from := |t.playerText| + |w.separator|;
            var to := |line| - |w.winsSuffix|;
            from <= to && ParseNat(line[from..to]) == t.wins
  {
    var line := ScoreLine(w, t);
    var from := |t.playerText| + |w.separator|;
    assert line[from..|line| - |w.winsSuffix|] == NatToString(t.wins);
    ParseNatToString(t.wins);
  }

  /** The two game managers phrase every fixed piece of text differently. */
  lemma WordingsDiffer()
    ensures TutorialWording.draw != AuthorWording.draw
    ensures TutorialWording.winsRound != AuthorWording.winsRound
    ensures TutorialWording.separator != AuthorWording.separator
    ensures TutorialWording.winsSuffix != AuthorWording.winsSuffix
    ensures TutorialWording.winsGame != AuthorWording.winsGame
  {
    assert |TutorialWording.draw| != |AuthorWording.draw|;
    assert |TutorialWording.winsRound| != |AuthorWording.winsRound|;
    assert |TutorialWording.separator| != |AuthorWording.separator|;
    assert |TutorialWording.winsSuffix| != |AuthorWording.winsSuffix|;
    assert |TutorialWording.winsGame| != |AuthorWording.winsGame|;
  }

  /**
   * Without a game winner, the end text opens with its headline: the draw
   * text or the round winner's announcement, before the line breaks.
   */
  lemma EndTextOpensWithHeadline(w: Wording, s: seq<Tank>, roundWinner: Option<nat>)
    requires roundWinner.Some? ==> roundWinner.value < |s|
    ensures var h := Headline(w, s, roundWinner);
            var t := EndText(w, s, roundWinner, None);
            |h| + |LineBreaks| <= |t| && t[..|h|] == h && t[|h|..|h| + |LineBreaks|] == LineBreaks
  {
    var h := Headline(w, s, roundWinner);
    var t := EndText(w, s, roundWinner, None);
    assert t == h + LineBreaks + Scoreboard(w, s);
    assert t[..|h|] == h;
  }

  /** Two tanks A and B, tutorial wording: A survives and wins the round. */
  lemma RoundWinHeadline()
    ensures Headline(TutorialWording, [Tank("A", 1, 1, true, false), Tank("B", 2, 0, false, false)], Some(0))
            == "A WINS THE ROUND!"
  {
  }

  /** Author's wording: nobody survives, and the round is a draw. */
  lemma DrawHeadline(s: seq<Tank>)
    ensures Headline(AuthorWording, s, None) == "DRAW !"
  {
  }

  /**
   * Two tanks A and B, tutorial wording: once A reaches the threshold the
   * message is the game announcement alone, with no score lines.
   */
  lemma GameWinScenario()
    ensures EndText(TutorialWording, [Tank("A", 1, 2, true, false), Tank("B", 2, 0, false, false)], Some(0), Some(0))
            == "A WINS THE GAME!"
  {
  }
}
