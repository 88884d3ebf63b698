# Tanks round manager and shell damage, in Dafny

This project models the game logic of a two-player Unity tank game:

- The **round/game state machine** of its `GameManager`. It exists twice with the same logic:
  - the tutorial's `Complete.GameManager` (`Assets/Tanks_Asset/_Completed-Assets/Scripts/Managers/GameManager.cs`);
  - the author's own `GameManager` (`Assets/SCRIPTS/GameManager.cs`).

  The manager keeps:
  - an array of per-tank records: a coloured player label, a player number, a win count, whether the tank's instance is active, and whether its control is enabled;
  - a round counter;
  - the round winner and the game winner;
  - the message shown on screen.

  A round has three phases:
  - **Starting** resets every tank, disables control, increments the round number and shows `ROUND n`.
  - **Playing** enables control, clears the message and tests whether at most one tank is active. It tests once before waiting for the first frame and then once per frame.
  - **Ending** disables control, credits the round winner (the first active tank, or nobody on a draw) with one win, looks for the game winner (the first tank whose wins equal the threshold) and builds the end message.

  After Ending, the game either ends or starts another round. It ends when there is a game winner: the tutorial then loads scene 0 and the author's file reloads the current level.
- The **shell explosion** of `Assets/SCRIPTS/Bullet.cs`:
  - the radial damage fall-off `max(0, (R - d) / R * maxDamage)`;
  - the loop that pushes every caught body with a rigid body and damages those that also carry health.

## Layout

- `Wrappers.dfy`: `Option`, which stands for a possibly-null tank reference and a possibly-missing component.
- `Text.dfy`: decimal rendering of a natural number (C#'s `int` to `string` conversion used in `"ROUND " + n` and in the score lines), with its parser and the round trip between them.
- `Tanks.dfy`: the per-tank record `Tank` and the specification functions over a sequence of tanks:
  - `CountActive` and `FirstActive` (the round searches);
  - `FirstWithWins` (the game-winner search);
  - `Credit` (one more win for one tank);
  - `SumWins`;
  - `WithoutControl` and `Tallied` (what a round's tally does to the tanks).

  It also holds the lemmas about them.
- `Messages.dfy`: the on-screen texts.
  - Both source files build the same messages and differ only in spacing, so the strings are collected in a `Wording` value.
  - `TutorialWording` holds the strings of the tutorial file and `AuthorWording` those of the author's file.
  - `EndText` is the end-of-round message as a function of the tanks and the two winners.
- `Game.dfy`: class `GameManager`.
  - The fields are the manager's state. The tanks are an `array<Tank>` that the phase methods update in place.
  - Unity runs the phases as coroutines. Here each resumption of a coroutine is one method, and the field `phase` records where the game loop is waiting: `Starting`, `Playing`, `Polling`, `Ending`, `Ended` or `Over`.
  - `Over` stands for the scene load that ends a game (scene 0 in the tutorial, the current level in the author's file).
  - `GameLoopStep` performs the next resumption of the game loop.
  - The class invariant `Valid()` includes the bound "no tank's wins exceed the threshold", which holds whenever the threshold is at least 1.
- `Bullet.dfy`: `CalculateDamage` over `real` and `OnTriggerEnter` as a loop that returns the list of physical effects it applies.
- `Scenario.dfy`: two games driven through the game loop.
  - A two-round game between two tanks: round one's message opens with `A WINS THE ROUND!` and the game ends with `A WINS THE GAME!`.
  - A game with a single tank, which wins the round at once.

### One class for both GameManager files

The two `GameManager` files run the same state machine, with the correspondence below. They differ in three ways: the message strings, the Highlights calls (tutorial only), and how a finished game ends (the tutorial loads scene 0, the author's file reloads the current level). The class `Game.GameManager` models both. Its `wording` field selects the message strings of one file or the other, and `Messages.WordingsDiffer` shows the two wordings differ.

| operation | tutorial file | author's file |
|---|---|---|
| SpawnAllTanks | 44-55 | 33-41 |
| GameLoop | 76-101 | 55-69 |
| RoundStarting | 105-120 | 71-82 |
| RoundPlaying | 123-172 | 84-94 |
| RoundEnding | 175-199 | 96-112 |
| OneTankLeft | 203-218 | 178-188 |
| GetRoundWinner | 223-235 | 114-123 |
| GetGameWinner | 239-251 | 125-133 |
| EndMessage | 255-278 | 135-152 |
| Reset/Enable/DisableTankControl | 282-306 | 154-176 |

## Model

| member | source | states |
|---|---|---|
| Game.GameManager.constructor | Assets/Tanks_Asset/_Completed-Assets/Scripts/Managers/GameManager.cs:28-40 | Start spawns one tank per configured player: tank i has the given label, player number i + 1, no wins and is active; round 0, no winners, empty message, the loop about to run RoundStarting |
| Game.GameManager.SpawnAllTanks | Assets/SCRIPTS/GameManager.cs:33-41 | every tank gets player number i + 1 and is instantiated (active); player numbers are pairwise distinct and lie in 1..N |
| Game.GameManager.ResetAllTanks | Assets/Tanks_Asset/_Completed-Assets/Scripts/Managers/GameManager.cs:282-288 | every tank is turned back on (active) and nothing else about it changes |
| Game.GameManager.SetTankControl | Assets/Tanks_Asset/_Completed-Assets/Scripts/Managers/GameManager.cs:291-306 | every tank's control flag becomes the given value, nothing else about the tank changes |
| Game.GameManager.EnableTankControl | Assets/Tanks_Asset/_Completed-Assets/Scripts/Managers/GameManager.cs:291-297 | every tank's control is enabled and nothing else about it changes |
| Game.GameManager.DisableTankControl | Assets/Tanks_Asset/_Completed-Assets/Scripts/Managers/GameManager.cs:300-306 | every tank's control is disabled and nothing else about it changes |
| Game.GameManager.OneTankLeft | Assets/Tanks_Asset/_Completed-Assets/Scripts/Managers/GameManager.cs:203-218 | true exactly when at most one tank is active, equivalently when no two distinct tanks are both active |
| Game.GameManager.GetRoundWinner | Assets/Tanks_Asset/_Completed-Assets/Scripts/Managers/GameManager.cs:223-235 | the result is `FirstActive` of the tanks: the lowest-index active tank, or none (a draw) when no tank is active |
| Game.GameManager.GetGameWinner | Assets/Tanks_Asset/_Completed-Assets/Scripts/Managers/GameManager.cs:239-251 | the result is `FirstWithWins` of the tanks and the threshold: the lowest-index tank whose wins equal the threshold, or none |
| Game.GameManager.EndMessage | Assets/Tanks_Asset/_Completed-Assets/Scripts/Managers/GameManager.cs:255-278 | the accumulated string is `EndText` of the wording, the tanks and both winners |
| Game.GameManager.RoundStarting | Assets/Tanks_Asset/_Completed-Assets/Scripts/Managers/GameManager.cs:105-120 | the round number goes up by exactly 1; the message is `ROUND ` followed by the new round number; every tank is active with control disabled, labels and wins untouched; winners untouched; the invariant (including the wins bound) is kept |
| Game.GameManager.RoundPlaying | Assets/Tanks_Asset/_Completed-Assets/Scripts/Managers/GameManager.cs:123-132 | every tank's control is enabled, nothing else about the tanks changes, the message is cleared; the loop condition is tested before the first frame wait, so the round goes straight to Ending when at most one tank is active and otherwise starts polling |
| Game.GameManager.RoundPlayingFrame | Assets/Tanks_Asset/_Completed-Assets/Scripts/Managers/GameManager.cs:131-148 | one frame of the polling loop: the round goes to Ending exactly when at most one tank is active, otherwise it keeps polling; nothing else changes |
| Game.GameManager.Eliminate | Assets/Tanks_Asset/_Completed-Assets/Scripts/Managers/GameManager.cs:131-147 | while a round is being played a tank's instance may be switched off: only its active flag changes, and the invariant is kept |
| Game.GameManager.RoundEnding | Assets/Tanks_Asset/_Completed-Assets/Scripts/Managers/GameManager.cs:175-199 | the round winner is the first active tank of the tanks as play stopped (none on a draw); the tanks become `Tallied` of the old tanks: per `Tanks.TalliedCredit` that winner alone gains exactly one win and every tank loses control, and per `Tanks.TalliedSum` the total of wins rises by exactly one, or by none on a draw; the game winner is the first tank whose wins equal the threshold; the message is `EndText`; the round number is unchanged; the invariant, with its wins bound, is kept |
| Game.GameManager.TallyRound | Assets/Tanks_Asset/_Completed-Assets/Scripts/Managers/GameManager.cs:178-188 | after disabling control, clearing and recomputing the round winner and crediting it, the round winner is the first active tank of the old tanks and the tanks are `Tallied` of the old tanks |
| Game.GameManager.Announce | Assets/Tanks_Asset/_Completed-Assets/Scripts/Managers/GameManager.cs:190-195 | the game winner is the first tank whose wins equal the threshold, and the message is `EndText` of the tanks and both winners |
| Game.GameManager.AddWin | Assets/Tanks_Asset/_Completed-Assets/Scripts/Managers/GameManager.cs:187-188 | the tanks become `Credit(old tanks, k)`: tank k gains one win, every other tank and field is unchanged |
| Game.GameManager.GameLoopStep | Assets/Tanks_Asset/_Completed-Assets/Scripts/Managers/GameManager.cs:76-101 | one resumption of the game loop, passing on the outcome of the phase it runs. Starting: Playing, round + 1, the `RoundText` banner, every tank reset with control disabled. Playing: control enabled, message cleared, Ending exactly when at most one tank is active and otherwise Polling. Polling: the same test, with nothing else changed. Ending: Ended, the round winner is the first active tank, the tanks are `Tallied` of the old tanks, the game winner is the first tank at the threshold, the message is `EndText`. After Ending the game is over exactly when there is a game winner, and otherwise a new round starts with tanks, winners and message untouched. No tank's wins ever decrease, and the invariant (wins never exceed the threshold) is kept |
| Tanks.CountActive | Assets/Tanks_Asset/_Completed-Assets/Scripts/Managers/GameManager.cs:206-214 | the number of active tanks never exceeds the number of tanks |
| Tanks.FirstActive | Assets/Tanks_Asset/_Completed-Assets/Scripts/Managers/GameManager.cs:223-235 | a result is an active tank with no active tank before it; no result exactly when no tank is active |
| Tanks.FirstWithWins | Assets/Tanks_Asset/_Completed-Assets/Scripts/Managers/GameManager.cs:239-251 | a result is a tank whose wins equal the target with no such tank before it; no result exactly when no tank has that many wins |
| Tanks.Credit | Assets/Tanks_Asset/_Completed-Assets/Scripts/Managers/GameManager.cs:187-188 | crediting one tank keeps the number of tanks |
| Tanks.NoneActive | Assets/Tanks_Asset/_Completed-Assets/Scripts/Managers/GameManager.cs:206-217 | the active count is zero exactly when no tank is active |
| Tanks.AtMostOneActive | Assets/SCRIPTS/GameManager.cs:178-188 | the active count is at most one exactly when no two distinct tanks are both active |
| Tanks.DrawIffNoneActive | Assets/SCRIPTS/GameManager.cs:114-123 | the round winner search finds nobody exactly when the active count is zero |
| Tanks.RoundWinnerIsSurvivor | Assets/Tanks_Asset/_Completed-Assets/Scripts/Managers/GameManager.cs:221-235 | when at most one tank is active, the tank the winner search returns is the only active one |
| Tanks.SumWinsOfSameWins | Assets/Tanks_Asset/_Completed-Assets/Scripts/Managers/GameManager.cs:300-306 | the total of wins depends on the win counts alone, so disabling control leaves it unchanged |
| Tanks.CreditAddsOne | Assets/SCRIPTS/GameManager.cs:103-104 | crediting the round winner raises the total of all wins by exactly one |
| Tanks.SumWinsBelow | Assets/Tanks_Asset/_Completed-Assets/Scripts/Managers/GameManager.cs:88-101 | while nobody has reached a threshold w >= 1, the total of all wins is at most N * (w - 1); since each decided round raises the total by exactly one (`Tanks.TalliedSum`, for the tanks `RoundEnding` leaves), at most N * (w - 1) rounds can be decided before some tank reaches w |
| Tanks.CreditKeepsBound | Assets/Tanks_Asset/_Completed-Assets/Scripts/Managers/GameManager.cs:187-191 | if every tank was below the threshold, after one credit none is above it, and if the game-winner search then finds nobody, all are still below it |
| Tanks.SameActiveSameWinner | Assets/Tanks_Asset/_Completed-Assets/Scripts/Managers/GameManager.cs:223-235 | tanks with the same active flags have the same round winner |
| Tanks.WithoutControl | Assets/Tanks_Asset/_Completed-Assets/Scripts/Managers/GameManager.cs:300-306 | every tank keeps its record except that its control is disabled, and the number of tanks is unchanged |
| Tanks.TalliedCredit | Assets/Tanks_Asset/_Completed-Assets/Scripts/Managers/GameManager.cs:178-188 | in the tally the first active tank alone gains exactly one win; every other tank only loses control (on a draw, every tank only loses control) |
| Tanks.TalliedControl | Assets/Tanks_Asset/_Completed-Assets/Scripts/Managers/GameManager.cs:178-184 | after the tally no tank has control, and the round winner is the same as before it |
| Tanks.TalliedWinsGrow | Assets/Tanks_Asset/_Completed-Assets/Scripts/Managers/GameManager.cs:187-188 | the tally never lowers a tank's wins |
| Tanks.TalliedSum | Assets/Tanks_Asset/_Completed-Assets/Scripts/Managers/GameManager.cs:186-188 | the tally raises the total of all wins by exactly one, or by none on a draw |
| Tanks.TalliedKeepsBound | Assets/Tanks_Asset/_Completed-Assets/Scripts/Managers/GameManager.cs:186-191 | if every tank was below the threshold, after the tally none is above it, and if the game-winner search then finds nobody, all are still below it |
| Text.NatToString | Assets/Tanks_Asset/_Completed-Assets/Scripts/Managers/GameManager.cs:116 | the decimal text of a number is non-empty, all digits, without a leading zero, and is "0" exactly for zero |
| Text.ParseNatToString | Assets/Tanks_Asset/_Completed-Assets/Scripts/Managers/GameManager.cs:116 | reading back the decimal text of a number gives that number |
| Text.NatToStringInjective | Assets/Tanks_Asset/_Completed-Assets/Scripts/Managers/GameManager.cs:270 | two different numbers never render to the same text |
| Messages.RoundText | Assets/Tanks_Asset/_Completed-Assets/Scripts/Managers/GameManager.cs:116 | the round banner is `ROUND ` followed by digits that read back as the round number |
| Messages.ScoreboardAppend | Assets/Tanks_Asset/_Completed-Assets/Scripts/Managers/GameManager.cs:268-271 | the score lines of two runs of tanks are the score lines of each, in order |
| Messages.ScoreboardLineAt | Assets/Tanks_Asset/_Completed-Assets/Scripts/Managers/GameManager.cs:268-271 | each tank contributes exactly its own score line, between the lines of the tanks before it and those after it |
| Messages.ScoreLineReadsBack | Assets/Tanks_Asset/_Completed-Assets/Scripts/Managers/GameManager.cs:270 | a score line is the label, the separator, the decimal wins and the suffix, and the wins read back from it |
| Messages.WordingsDiffer | Assets/SCRIPTS/GameManager.cs:137-149 | the author's draw, round-win, separator and wins strings all differ from the tutorial's (a space before `!` and around `:`) |
| Messages.EndTextOpensWithHeadline | Assets/Tanks_Asset/_Completed-Assets/Scripts/Managers/GameManager.cs:258-265 | without a game winner the end text opens with the headline (draw or round winner), followed by the four line breaks |
| Messages.RoundWinHeadline | Assets/Tanks_Asset/_Completed-Assets/Scripts/Managers/GameManager.cs:261-262 | tutorial wording: a round won by A is announced as `A WINS THE ROUND!` |
| Messages.DrawHeadline | Assets/SCRIPTS/GameManager.cs:137 | author's wording: a drawn round is announced as `DRAW !` |
| Messages.GameWinScenario | Assets/Tanks_Asset/_Completed-Assets/Scripts/Managers/GameManager.cs:274-275 | with a game winner the whole end text is replaced by `<label> WINS THE GAME!` |
| Bullet.Max | Assets/SCRIPTS/Bullet.cs:53 | the larger of two values: at least both, and equal to one of them |
| Bullet.CalculateDamage | Assets/SCRIPTS/Bullet.cs:47-56 | the damage is never negative |
| Bullet.DamageAtCentre | Assets/SCRIPTS/Bullet.cs:49-52 | a target at the centre of the blast takes the full maximum damage |
| Bullet.NoDamageOutside | Assets/SCRIPTS/Bullet.cs:51-53 | a target at or beyond the explosion radius takes no damage |
| Bullet.LinearInside | Assets/SCRIPTS/Bullet.cs:51-52 | inside the radius the damage is exactly maxDamage * (R - d) / R |
| Bullet.DamageNonIncreasing | Assets/SCRIPTS/Bullet.cs:51-53 | a farther target never takes more damage than a nearer one |
| Bullet.DamageAtMostMax | Assets/SCRIPTS/Bullet.cs:51-53 | no target takes more than the maximum damage |
| Bullet.HalfwayExample | Assets/SCRIPTS/Bullet.cs:11-13 | with the default maximum 100 and radius 5, a target 2.5 away takes 50 |
| Bullet.EffectsTargetCaught | Assets/SCRIPTS/Bullet.cs:24-38 | every effect the loop applies is aimed at one of the caught colliders |
| Bullet.EffectsPerTarget | Assets/SCRIPTS/Bullet.cs:24-38 | a collider is pushed exactly once if it has a rigid body and never otherwise; it is damaged exactly once if its body also carries health and never otherwise |
| Bullet.HurtAmounts | Assets/SCRIPTS/Bullet.cs:36-37 | every damage applied is `CalculateDamage` at that target's distance |
| Bullet.OnTriggerEnter | Assets/SCRIPTS/Bullet.cs:20-45 | the effects applied by the loop, in order, are `Effects` of the shell and the colliders |
| Scenario.PlayUntilSecondTankFalls | Assets/Tanks_Asset/_Completed-Assets/Scripts/Managers/GameManager.cs:76-85 | three resumptions of a two-tank round in which tank 1 is destroyed: both tanks are reset and given control, tank 1 is inactive, and the round is ready to end |
| Scenario.SecondTankLosesRound | Assets/Tanks_Asset/_Completed-Assets/Scripts/Managers/GameManager.cs:76-101 | driven by four resumptions of the game loop, in a two-tank round in which tank 1 is destroyed, tank 0 wins the round and gains one win, tank 1 keeps its wins, and the message is the end text of the new state |
| Scenario.FirstRound | Assets/Tanks_Asset/_Completed-Assets/Scripts/Managers/GameManager.cs:255-265 | round one of the two-tank game to two wins: A has one win, there is no game winner yet, and the message opens with `A WINS THE ROUND!` |
| Scenario.LoneTankAlone | Assets/Tanks_Asset/_Completed-Assets/Scripts/Managers/GameManager.cs:123-132 | with a single tank the round moves from Playing straight to Ending, without waiting a frame |
| Scenario.LoneTankRound | Assets/SCRIPTS/GameManager.cs:96-112 | a single tank with threshold one wins the round and the game, and the message is `A WINS THE GAME !` |

## Left out

- Highlights: the NVIDIA Highlights SDK calls are foreign calls into a library that is not part of this model. This covers highlight setup, the summary, the KABOOM / HURT_ME_PLENTY / HEAVY_DUTY_TRAVELER triggers and the Update/OnDestroy logging.
- TraveledAGoodDistance: it reads a float distance from the tank manager, which is not part of this model.
- Timing: coroutine waits (`WaitForSeconds`, `yield return null`) are replaced by explicit phase transitions. The model says nothing about how long a phase lasts.
- Scene reload: `SceneManager.LoadScene` / `Application.LoadLevel` become the terminal phase `Over`, and the next game is not modelled.
- Tank death: the tank's health component, which switches a tank's instance off, is not part of this model. `Game.GameManager.Eliminate` stands for it and is allowed only while the round is being played (phase `Polling`).
- Tank manager: `TankManager` / `Tank_Manager` are not part of this model. `Reset` is modelled as "the instance becomes active again" and `EnableControl` / `DisableControl` as setting a control flag. What `Setup` does to control is unknown, so a freshly spawned tank starts with control disabled (it is disabled again by RoundStarting before any play).
- Engine work: instantiating prefabs, colouring labels, camera targets and camera positioning are engine work with no effect on the game logic. Player labels are opaque strings.
- Game.GameManager.constructor: it does not check that there are at least two tanks, and neither does the source. With one tank every round ends at once with that tank as the winner (`Scenario.LoneTankGame`).
- Game.GameManager.Valid: the wins bound is kept only when the threshold is at least 1. The source does not guard the inspector value: with a threshold of 0 every tank already has the winning count, and with a negative one no game ever ends.
- Integer width: the round counter and win counts are unbounded. The source's 32-bit `int` would wrap after 2^31 rounds.
- Bullet.CalculateDamage: requires a non-zero radius. With radius 0 the source divides by zero in floating point, and the resulting infinity or NaN is not modelled. Reals stand for `float`, so rounding is not modelled either.
- Bullet.OnTriggerEnter: the engine work is not modelled. That covers `Physics.OverlapSphere` (the caught colliders are an input), the push itself (`AddExplosionForce` is recorded as an effect), the distance computation (each body's distance is an input), particles, audio and `Destroy`.
- Shared bodies: each collider carries its own body. The source can reach the same `Rigidbody` and `TankHealth` through several colliders of one tank, and then pushes and damages it once per collider. The model counts per collider and cannot express that sharing.
- Other files: camera control, tank movement, shooting and the UI rotation script are engine and input code and are not part of this model.
- Messages: the rich-text colour tags inside a player's label are part of the opaque label string.
