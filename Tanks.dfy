/**
 * The per-tank session record the game manager keeps in its tank array, and
 * the read-only searches it runs over that array: how many tanks are still
 * active, which active tank comes first (the round winner) and which tank
 * first reached the win threshold (the game winner).
 */
module Tanks {
  import opened Wrappers

  /**
   * One tank manager entry: its coloured player text (opaque text built by
   * the tank manager), its player number, its round wins, whether its tank
   * instance is active in the scene and whether player input drives it.
   */
  datatype Tank = Tank(playerText: string, playerNumber: nat, wins: nat, active: bool, controlEnabled: bool)

  /** Number of tanks whose instance is active, counted front to back. */
  function CountActive(s: seq<Tank>): (n: nat)
    ensures n <= |s|
  {
    if s == [] then 0
    else CountActive(s[..|s| - 1]) + (if s[|s| - 1].active then 1 else 0)
  }

  /** The lowest index whose tank is active, or None when every tank is inactive. */
  function FirstActive(s: seq<Tank>): (r: Option<nat>)
    ensures r.Some? ==> r.value < |s| && s[r.value].active
    ensures r.Some? ==> forall j :: 0 <= j < r.value ==> !s[j].active
    ensures r.None? <==> forall j :: 0 <= j < |s| ==> !s[j].active
  {
    if s == [] then None
    else if s[0].active then Some(0)
    else match FirstActive(s[1..])
      case None => None
      case Some(k) => Some(k + 1)
  }

  /** The lowest index whose win count equals `target`, or None when there is none. */
  function FirstWithWins(s: seq<Tank>, target: int): (r: Option<nat>)
    ensures r.Some? ==> r.value < |s| && s[r.value].wins == target
    ensures r.Some? ==> forall j :: 0 <= j < r.value ==> s[j].wins != target
    ensures r.None? <==> forall j :: 0 <= j < |s| ==> s[j].wins != target
  {
    if s == [] then None
    else if s[0].wins == target then Some(0)
    else match FirstWithWins(s[1..], target)
      case None => None
      case Some(k) => Some(k + 1)
  }

  /** Total of all tanks' round wins. */
  function SumWins(s: seq<Tank>): nat {
    if s == [] then 0 else SumWins(s[..|s| - 1]) + s[|s| - 1].wins
  }

  /** `s` with tank `k` credited one more round win. */
  function Credit(s: seq<Tank>, k: nat): (t: seq<Tank>)
    requires k < |s|
    ensures |t| == |s|
  {
    s[k := s[k].(wins := s[k].wins + 1)]
  }

  /** No active tank at all exactly when the active count is zero. */
  lemma {:induction false} NoneActive(s: seq<Tank>)
    ensures CountActive(s) == 0 <==> forall j :: 0 <= j < |s| ==> !s[j].active
  {
    if s != [] {
      var t := s[..|s| - 1];
      NoneActive(t);
      assert forall j :: 0 <= j < |t| ==> t[j] == s[j];
    }
  }

  /** No two distinct tanks are both active. */
  predicate NoTwoActive(s: seq<Tank>) {
    forall i, j :: 0 <= i < |s| && 0 <= j < |s| && s[i].active && s[j].active ==> i == j
  }

  /**
   * The round-ending test: at most one tank is counted active exactly when
   * no two distinct tanks are both active.
   */
  lemma {:induction false} AtMostOneActive(s: seq<Tank>)
    ensures CountActive(s) <= 1 <==> NoTwoActive(s)
  {
    if s != [] {
      var t := s[..|s| - 1];
      var last := |s| - 1;
      assert forall j :: 0 <= j < |t| ==> t[j] == s[j];
      AtMostOneActive(t);
      NoneActive(t);
      if s[last].active {
        if CountActive(s) > 1 {
          var k :| 0 <= k < |t| && t[k].active;
          assert s[k].active && s[last].active && k != last;
        }
      }
    }
  }

  /** A round is a draw (no winner) exactly when no tank is active. */
  lemma DrawIffNoneActive(s: seq<Tank>)
    ensures FirstActive(s).None? <==> CountActive(s) == 0
  {
    NoneActive(s);
  }

  /**
   * Once at most one tank is active, the round winner found by the search is
   * the one and only surviving tank.
   */
  lemma RoundWinnerIsSurvivor(s: seq<Tank>)
    requires CountActive(s) <= 1
    ensures FirstActive(s).Some? ==>
            forall j :: 0 <= j < |s| ==> (s[j].active <==> j == FirstActive(s).value)
  {
    AtMostOneActive(s);
  }

  /** Crediting a tank with one win raises the total by exactly one. */
  lemma {:induction false} CreditAddsOne(s: seq<Tank>, k: nat)
    requires k < |s|
    ensures SumWins(Credit(s, k)) == SumWins(s) + 1
  {
    var t := Credit(s, k);
    var last := |s| - 1;
    assert t[..last] == if k == last then s[..last] else Credit(s[..last], k);
    if k < last {
      CreditAddsOne(s[..last], k);
    }
  }

  /** The total of wins depends on the win counts alone. */
  lemma {:induction false} SumWinsOfSameWins(s: seq<Tank>, t: seq<Tank>)
    requires |s| == |t|
    requires forall j :: 0 <= j < |s| ==> s[j].wins == t[j].wins
    ensures SumWins(s) == SumWins(t)
  {
    if s != [] {
      var last := |s| - 1;
      assert forall j :: 0 <= j < last ==> s[..last][j] == s[j] && t[..last][j] == t[j];
      SumWinsOfSameWins(s[..last], t[..last]);
    }
  }

  /**
   * While every tank is below the threshold `w`, the total of wins is at most
   * |s| * (w - 1): each decisive round brings the game closer to its end.
   */
  lemma {:induction false} SumWinsBelow(s: seq<Tank>, w: int)
    requires w >= 1
    requires forall j :: 0 <= j < |s| ==> s[j].wins < w
    ensures SumWins(s) <= |s| * (w - 1)
  {
    if s != [] {
      var t := s[..|s| - 1];
      assert forall j :: 0 <= j < |t| ==> t[j] == s[j];
      SumWinsBelow(t, w);
      assert SumWins(s) == SumWins(t) + s[|s| - 1].wins;
      assert s[|s| - 1].wins <= w - 1;
      assert |s| * (w - 1) == |t| * (w - 1) + (w - 1);
    }
  }

  /**
   * The tally step of a round cannot skip the threshold: if every tank was
   * below `w` and one tank is credited a win, every tank is at most `w`, and
   * if nobody then has exactly `w` wins, everybody is still below `w`.
   */
  lemma CreditKeepsBound(s: seq<Tank>, k: nat, w: int)
    requires k < |s|
    requires forall j :: 0 <= j < |s| ==> s[j].wins < w
    ensures forall j :: 0 <= j < |s| ==> Credit(s, k)[j].wins <= w
    ensures FirstWithWins(Credit(s, k), w).None? ==>
            forall j :: 0 <= j < |s| ==> Credit(s, k)[j].wins < w
  {
  }

  /** Every tank's control flag equals `on`. */
  predicate AllControl(s: seq<Tank>, on: bool) {
    forall i :: 0 <= i < |s| ==> s[i].controlEnabled == on
  }

  /** Tanks with the same active flags have the same round winner. */
  lemma SameActiveSameWinner(s: seq<Tank>, t: seq<Tank>)
    requires |s| == |t|
    requires forall i :: 0 <= i < |s| ==> t[i].active == s[i].active
    ensures FirstActive(t) == FirstActive(s)
  {
    var a, b := FirstActive(s), FirstActive(t);
    if a.Some? && b.Some? {
      assert !(a.value < b.value) && !(b.value < a.value);
    }
  }

  /** Every tank with its control taken away. */
  function WithoutControl(s: seq<Tank>): (t: seq<Tank>)
    ensures |t| == |s|
    ensures forall i :: 0 <= i < |s| ==> t[i] == s[i].(controlEnabled := false)
  {
    if s == [] then [] else WithoutControl(s[..|s| - 1]) + [s[|s| - 1].(controlEnabled := false)]
  }

  /**
   * The tanks after a round's tally: control is taken from every tank and
   * the round winner, the first active tank, is credited with one win.
   */
  function Tallied(s: seq<Tank>): seq<Tank> {
    match FirstActive(s)
    case None => WithoutControl(s)
    case Some(k) => Credit(WithoutControl(s), k)
  }

  /**
   * What the tally does to each tank: the round winner alone gains exactly
   * one win, and no other tank's record changes except that control is
   * taken away.
   */
  lemma TalliedCredit(s: seq<Tank>)
    ensures |Tallied(s)| == |s|
    ensures forall i :: 0 <= i < |s| && FirstActive(s) != Some(i) ==>
              Tallied(s)[i] == s[i].(controlEnabled := false)
    ensures FirstActive(s).Some? ==> var k := FirstActive(s).value;
              Tallied(s)[k] == s[k].(controlEnabled := false, wins := s[k].wins + 1)
  {
  }

  /**
   * After the tally no tank has control, and the round winner is where it
   * was: the tally does not switch any tank's instance on or off.
   */
  lemma TalliedControl(s: seq<Tank>)
    ensures |Tallied(s)| == |s|
    ensures AllControl(Tallied(s), false)
    ensures FirstActive(Tallied(s)) == FirstActive(s)
  {
    SameActiveSameWinner(s, Tallied(s));
  }

  /** No tank loses a win in the tally. */
  lemma TalliedWinsGrow(s: seq<Tank>)
    ensures |Tallied(s)| == |s|
    ensures forall i :: 0 <= i < |s| ==> Tallied(s)[i].wins >= s[i].wins
  {
  }

  /** A round's tally raises the total of all wins by one, or by none on a draw. */
  lemma TalliedSum(s: seq<Tank>)
    ensures SumWins(Tallied(s)) == SumWins(s) + (if FirstActive(s).Some? then 1 else 0)
  {
    SumWinsOfSameWins(WithoutControl(s), s);
    if FirstActive(s).Some? {
      CreditAddsOne(WithoutControl(s), FirstActive(s).value);
    }
  }

  /**
   * A round's tally cannot skip the threshold `w`: if every tank was below
   * it, none is above it afterwards, and if the game-winner search then
   * finds nobody at `w`, every tank is still below it.
   */
  lemma TalliedKeepsBound(s: seq<Tank>, w: int)
    requires forall j :: 0 <= j < |s| ==> s[j].wins < w
    ensures forall j :: 0 <= j < |s| ==> Tallied(s)[j].wins <= w
    ensures FirstWithWins(Tallied(s), w).None? ==> forall j :: 0 <= j < |s| ==> Tallied(s)[j].wins < w
  {
    var d := WithoutControl(s);
    if FirstActive(s).Some? {
      CreditKeepsBound(d, FirstActive(s).value, w);
    }
  }
}
