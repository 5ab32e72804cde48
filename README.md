# Replay simulator core, modelled in Dafny

The project models the deterministic heart of a replay simulator for a fictional sport. The simulator reads recorded game events one at a time. It re-simulates each game and checks that the simulator would have produced the same event. The model has four parts:

- **`Rng`** (`rng.dfy`): the random stream. It is a bit-exact xorshift128+ generator over two 64-bit words, with shifts 23, 18 and 5 and wrapping addition. Its output goes into a 64-entry cache. The cache is filled in one go and then popped from the end, so values come out last-generated-first.
  - The class `Rng.Rng` keeps the source's three fields, and its methods update them in place.
  - The pure state `Rng.RngState`, with `Refill`, `Draw` and `Draws`, specifies those methods and carries the lemmas.
- **`ChroniclerSchema`** (`chronicler_schema.dfy`): the team and player records the game reads, the modifier-membership predicate, and the choice of display name.
- **`Game`** (`game.dfy`): one game as a phase machine, `NotStarted → Starting → StartOfHalfInning → [SuperyummyAnnouncement] → BatterUp → Pitch`.
  - The classes `Game.Game` and `Game.GameByTeam` keep the source's mutable fields. Each tick handler assigns them in the source's order, including the assignments made before a lookup fails.
  - Each handler is proved against a pure function (`LetsGoStep`, `HalfInningStep`, …, dispatched by `Step`). The lemmas about the state machine are stated over `Step`: the phase order, the play counter, the half-inning flip, lineup indexing, the SUPERYUMMY search, the weather dispatch and the pitch outcome.
- **`Sim`** (`sim.dfy`): the checker. It keeps one game per game identifier and one shared random stream, ticks the right game for each recorded event, and compares.
  - It is generic over the game type and its tick function. The source's calls (`Game::new()`, `game.tick(&mut rng)`) do not match the signatures in `src/game.rs`, so it cannot be wired to `Game.Step` as written.

The supporting modules are:

- `Wrappers`: `Option` and `Result`.
- `Fed`: minimal re-declarations of the external event library's `Weather`, `GameEvent`, `TogglePerforming` and `EventData`, with only the fields the simulator fills in.
- `Roster`: the roster snapshot (`World`) the game queries. Its type is not part of the source.

Errors are explicit values:

- Every `anyhow` error becomes `Err(Failure)`.
- The `todo!()` panics become `Err(Unmodelled(..))`.
- A remainder by an empty lineup's length (a panic in the source) becomes `Err(EmptyLineup)`.
- The checker's `assert_eq!` panic becomes the verdict `AssertEqPanic`.

**Float conversion.** The usual xorshift128+ double conversion keeps the top 52 bits of a raw word, ORs in the exponent of 1.0 and subtracts 1.0, giving a float in [0, 1). The code (`src/rng.rs:36`) instead computes `(raw >> 12) & 0x3FF0000000000000` and reinterprets that bit pattern, with no OR and no subtraction. The model follows the code:

- The cache holds the bit pattern as a `bv64` (`Rng.FloatBits`).
- `Rng.FloatBitsZero` proves that this pattern is always 0, so every draw reads as 0.0.
- `Rng.DrawValue` reads a pattern as its fraction over 2^52. That agrees with `f64::from_bits` on the patterns the code can produce.
- Two consequences for the game as written are proved for every stream whose cache holds only zero patterns (`Rng.Zeroed`, kept by every draw):
  - every thresholded weather reaches its unfinished event, since 0.0 is below 0.00025 (`Game.RolledWeatherAlwaysUnfinished`);
  - a called ball is never emitted, since a non-strike's swing threshold is at least 0.1, so the batter always swings at it (`Game.NoBallOnZeroedStream`).

## Model

| member | source | states |
|---|---|---|
| Rng.Rng.constructor | src/rng.rs:10-16 | the seed words are stored unchanged and the cache starts empty (hence within bounds) |
| Rng.Rng.NextRaw | src/rng.rs:18-31 | one xorshift128+ step: the new first word is the old second word, the new second word is the scrambled old first word (`t ^= t<<23; t ^= t>>18; t ^= s ^ (s>>5)`), the result is the new second word plus the old second word modulo 2^64, and the cache is untouched |
| Rng.Rng.RefillCache | src/rng.rs:33-39 | the loop leaves exactly the state `Refill` describes: the cache topped up to 64 entries by appending one entry per generator step |
| Rng.RefillSteps | src/rng.rs:33-39 | a refill of a cache of length c performs exactly 64 − c generator steps, and the appended entry at position i comes from the (i − c)-th raw word through the float-bits step |
| Rng.Refill | src/rng.rs:34 | a refill of a cache of at most 64 entries leaves exactly 64 |
| Rng.GenerateSteps | src/rng.rs:34-37 | n generated entries advance the words by exactly n steps, and entry i is the float bits of the i-th raw word |
| Rng.FloatBitsZero | src/rng.rs:36 | `(raw >> 12) & 0x3FF0000000000000` is 0 for every raw word, so every draw reads as 0.0 |
| Rng.DrawValue | src/rng.rs:37 | a drawn bit pattern reads as a value in [0, 1) |
| Rng.Draw | src/rng.rs:41-47 | a draw never reaches the `expect`: a non-empty cache yields its last entry and shrinks by one with the words untouched; an empty cache is first refilled, and the refilled cache's last entry is yielded |
| Rng.Rng.Next | src/rng.rs:41-47 | `next` performs exactly one `Draw` on the object's state; it keeps the cache within 0..64 and every cached pattern 0, so each value it returns is 0.0 |
| Rng.DrawPops | src/rng.rs:45 | on a non-empty cache a draw pops the last entry and changes nothing else |
| Rng.DrawBounded | src/rng.rs:34-45 | the cache length stays within 0..64 across every draw |
| Rng.DrawsPop | src/rng.rs:41-47 | k draws from a cache of at least k entries return its last k entries in reverse order and leave the words untouched |
| Rng.DrawsFromEmpty | src/rng.rs:34-46 | from an empty cache, 64 draws return one refill's entries in reverse generation order and leave the cache empty; the 65th draw triggers a new refill |
| Rng.StepNAdd | src/rng.rs:18-31 | generator steps compose: a steps then b steps are a + b steps |
| Rng.Generate | src/rng.rs:34-37 | generating n entries yields exactly n entries |
| Rng.GenerateZero | src/rng.rs:34-37 | every entry a refill generates is the bit pattern 0 |
| Rng.DrawZeroed | src/rng.rs:34-46 | from a cache of zero patterns, a draw returns the pattern 0, which reads as 0.0, and the cache stays all zero patterns |
| Rng.SecondRefillWords | src/rng.rs:34-46 | from an empty cache, after 65 draws (one full cache plus the draw that refills it again) the generator words have advanced by exactly 128 steps |
| ChroniclerSchema.AnyEquals | src/chronicler_schema.rs:209 | the left-to-right scan is true exactly when some element equals the modifier name |
| ChroniclerSchema.ListHasMod | src/chronicler_schema.rs:208-210 | false for an absent list; for a present list, true exactly when some element equals the modifier name |
| ChroniclerSchema.HasMod | src/chronicler_schema.rs:212-221 | true exactly when the name is in one of the permanent, season, week, game or item attribute lists |
| ChroniclerSchema.AddAttrMonotone | src/chronicler_schema.rs:213-220 | adding an attribute to any of the five lists never turns `has_mod` from true to false, and the added attribute is then present |
| ChroniclerSchema.TeamDisplayName | src/chronicler_schema.rs:89-96 | the scattered full name when the team's state has one, otherwise the full name |
| ChroniclerSchema.PlayerDisplayName | src/chronicler_schema.rs:199-206 | the unscattered name when the player's state has one, otherwise the name |
| Game.GameByTeam.constructor | src/game.rs:31-36 | a side starts with its team id and a batter count of −1 |
| Game.Game.constructor | src/game.rs:54-68 | a new game has the event's ids, weather and stadium, phase `NotStarted`, play 0, the bottom of inning −1, both batter counts −1, and two distinct side records |
| Game.Game.NextGameEvent | src/game.rs:70-81 | the header carries the game's ids and the current play, and the play counter goes up by exactly one with nothing else changed |
| Game.Game.Tick | src/game.rs:83-104 | a tick dispatches on the phase and does exactly what `Step` says to the fields, both side records and the random stream |
| Game.Game.LetsGo | src/game.rs:106-113 | moves to `Starting` and emits the start event with the weather and stadium |
| Game.Game.PlayBall | src/game.rs:115-120 | moves to `StartOfHalfInning` and emits the play-ball event |
| Game.Game.StartHalfInning | src/game.rs:122-142 | the roster queries fail before anything changes; otherwise phase, side, inning and play change before the batting team's name is looked up, as `HalfInningStep` says |
| Game.Game.SuperyummyAnnouncement | src/game.rs:164-189 | the phase becomes `BatterUp` before the search, and the event names the found player, that player's team, not overperforming, first proc |
| Game.Game.FindSuperyummy | src/game.rs:167-176 | the nested loop with early returns computes exactly `SearchTeams` over the batting team, then the pitching team |
| Game.SearchSlots | src/game.rs:169-173 | a found player has the modifier, and the only error is an unresolved roster slot |
| Game.SearchSlotsFirst | src/game.rs:168-174 | the slot search stops at the first unresolved slot (an error) or the first player with the modifier, and reports none exactly when it passes over every slot |
| Game.SearchTeams | src/game.rs:166-178 | a found player has the modifier, belongs to one of the searched teams, and sits in one of that team's slots |
| Game.SearchTeamsFirst | src/game.rs:167-176 | the teams are searched strictly in order: the result is that of the first team that is unknown (an error), has an unresolved slot before any match (that error), or holds the modifier (its first holder, with that team's id); "no such player" is reported exactly when every team is known and passed over |
| Game.FirstTeamHolderWins | src/game.rs:167-173 | when the first (batting) team resolves fully and has a holder, its first holder is announced, whatever the second team holds |
| Game.NobodyHoldsIt | src/game.rs:167-176 | with both teams fully resolved and no holder on either, the search ends in the "no such player" error |
| Game.SearchSlotsResolved | src/game.rs:168-178 | over a fully resolved team the search never fails, and finds a player exactly when some player has the modifier |
| Game.SearchFindsPresentPlayer | src/game.rs:167-178 | over two fully resolved teams the search succeeds whenever either team has a player with the modifier |
| Game.AnnouncementFindsPlayer | src/game.rs:123-130 | with both rosters fully resolved, a detour into the announcement is always followed by a successful announcement of a player from one of the two teams, and the phase becomes `BatterUp` |
| Game.Game.BatterUp | src/game.rs:217-237 | the phase becomes `Pitch` and the batting side's count goes up before the lookup; the play is stamped before the item name is resolved |
| Game.WieldingItem | src/game.rs:225-233 | no item without a bat or with an empty one; the table's display name for a listed item; an error for an unlisted non-empty item |
| Game.GetBatterAndTeam | src/game.rs:195-202 | a found batter is the batting team's lineup entry at its batter count modulo the lineup length; an unknown batting team is an error; the empty-lineup error happens exactly when the team is known and its lineup empty; over a non-empty lineup the lookup succeeds exactly when that entry resolves to a player, and fails only for a missing batter otherwise |
| Game.GetPitcherAndTeam | src/game.rs:208-215 | a found pitcher is the pitching team's LINEUP entry at its rotation slot modulo the lineup length; an unknown pitching team is an error; the empty-lineup error happens exactly when the team is known and its lineup empty; over a non-empty lineup the lookup succeeds exactly when that entry resolves to a player, and fails only for a missing pitcher otherwise |
| Game.LineupSlot | src/game.rs:198 | the index taken modulo the lineup length is within the lineup and equals the count while the count is below the length |
| Game.LineupWraps | src/game.rs:198 | lineup indexing is cyclic: the next count takes the next slot, wrapping from the last slot to the first, and a whole lineup later the slot repeats |
| Game.Game.BattingTeamGameData | src/game.rs:152-154 | the away side in the top of the inning and the home side in the bottom; its team is the fixture's batting team |
| Game.Game.PitchingTeamGameData | src/game.rs:156-158 | one of the two side records, never the batting one in a game with two side records; its team is the fixture's pitching team |
| Game.SidesSwap | src/game.rs:152-158 | the pitching side is the batting side of the other half-inning, and the two sides are the home and away teams |
| Game.Game.Pitch | src/game.rs:239-268 | the weather check runs first and its error or event ends the tick; otherwise the pitch is thrown |
| Game.Game.ActualPitch | src/game.rs:270-318 | one draw, then the batter and pitcher lookups, then a second draw; an unswung pitch emits a called strike or a ball, and a swing is unfinished |
| Game.SwingThreshold | src/game.rs:286-295 | the swing threshold of a non-strike lies in [0.1, 0.95] |
| Game.RuthlessnessMonotone | src/game.rs:278-295 | a more ruthless pitcher never lowers the strike threshold, never raises the swing threshold on strikes and never lowers it on balls |
| Game.ClampThreshold | src/game.rs:290-293 | the non-strike swing threshold is clamped into [0.1, 0.95] and unchanged inside it |
| Game.ActualPitchNeverBall | src/game.rs:270-315 | a thrown pitch on a stream of zero patterns never emits a ball: the non-strike swing threshold is at least 0.1, above the 0.0 roll |
| Game.NoBallOnZeroedStream | src/game.rs:239-315 | on a stream of zero patterns no pitch tick emits a ball |
| Game.PitchDrawsTwice | src/game.rs:270-315 | with quiet weather and both players found, a pitch consumes exactly two draws; it succeeds exactly when the second roll is at or above the swing threshold, and then emits `StrikeLooking{0,1}` when the first roll is under the strike threshold and `Ball{1,0}` otherwise |
| Game.Game.RollWeather | src/game.rs:320-419 | the weather check by class of weather computes exactly the arm-by-arm `WeatherStep` |
| Game.ThresholdRoll | src/game.rs:325-329 | a thresholded weather draws once, passes exactly when the value is at least 0.00025, and is unfinished otherwise |
| Game.WeatherDrawsAtMostOnce | src/game.rs:320-419 | the weather check consumes at most one draw |
| Game.RolledWeatherAlwaysUnfinished | src/game.rs:323-414 | on a stream of zero patterns every thresholded weather rolls 0.0 and reaches its unfinished event |
| Game.WeatherWithoutDraw | src/game.rs:320-419 | the inert weathers pass without a draw; Snowy, Glitter and Jazz are unfinished without a draw; an unlisted weather is an error without a draw |
| Game.WeatherWithDraw | src/game.rs:323-414 | each thresholded weather consumes exactly one draw, passes when it is at least 0.00025, and is unfinished below it |
| Game.WeatherNeverFires | src/game.rs:320-419 | no weather produces an event yet |
| Game.SuperyummyOnField | src/game.rs:123-126 | the detour test asks about the batting team first and the pitching team only when the batting team has no such player; it fails exactly when the batting team is unknown, or has no holder and the pitching team is unknown |
| Game.StepFrame | src/game.rs:83-104 | only the half-inning start moves the inning and the top/bottom flag, only sending up a batter moves the batter counts, and only a pitch touches the random stream |
| Game.StepFollowsPhaseOrder | src/game.rs:83-318 | every tick follows the phase order (a pitch tick stays in `Pitch`); a successful tick emits exactly one event stamped with the current play and bumps the play counter once; no tick bumps it more than once |
| Game.PitchTickOrderly | src/game.rs:239-318 | a pitch tick never changes the phase, bumps the play counter only with the event it emits, and leaves the whole state unchanged when it fails |
| Game.FailedTickState | src/game.rs:122-189 | an announcement tick always moves to `BatterUp` and a failed search changes nothing else; a failed roster query at a half-inning start changes nothing; a missing batting team at a half-inning start is reported after the side flipped, the inning moved on and the play counter went up |
| Game.HalfInningDetour | src/game.rs:122-136 | the half-inning start detours into the announcement exactly when the inning is below 0 and either side fields a SUPERYUMMY player, otherwise it goes to `BatterUp`; it flips the side, adds one to the inning, and reports the new inning one-indexed |
| Game.OnFieldMeansPlayer | src/game.rs:124-125 | a team reports the modifier exactly when one of its slots resolves to a player who holds it |
| Game.BatterUpAdvancesBattingSide | src/game.rs:217-220 | sending up a batter adds one to the batting side's count only and moves to `Pitch`; the first batter of a side is the first entry of its lineup |
| Sim.Sim.constructor | src/sim.rs:14-19 | no games yet, and one stream seeded with the two words and an empty cache |
| Sim.Sim.CheckNextEvent | src/sim.rs:21-32 | the method does to the game map and the stream exactly what `Check` says, and returns its verdict |
| Sim.Check | src/sim.rs:21-32 | an event without a per-game header is accepted and changes nothing; otherwise the game with that id (a new game on first sight, the stored one otherwise) ticks once on the shared stream, only that entry changes, and the verdict is a match exactly when the recorded event equals the simulated one |
| Sim.ReplayKeys | src/sim.rs:26 | over a stream of events, games are never dropped and are created only for ids the events carry |
| Sim.ReplayLeavesOtherGames | src/sim.rs:26-28 | a game whose id no event carries is left exactly as it was |
| Sim.HeaderlessEventsAreInert | src/sim.rs:22-24 | events without a per-game header draw nothing, start nothing and are always accepted |

## Left out

- Floating point.
  - The pitch formulas and thresholds are computed over `real`, so rounding and NaN are not modelled.
  - `ClampThreshold` states the clamp only for ordered values.
  - `f64::from_bits` is modelled only for the bit patterns the cache can hold; `Rng.DrawValue` is exact there.
- Integer widths.
  - `play` (`i64`), `inning` (`i32`) and the batter counts (`i64`) are unbounded integers, so overflow is not modelled.
  - The `as usize` casts are modelled as wrapping modulo 2^64 (`Game.AsUsize`).
  - The random stream's words are `bv64`, so their wrap-around is exact.
- Game.WeatherWithDraw and Game.ActualPitch: below the weather threshold and on a swing, the source reaches `todo!()`. These results are `Err(Unmodelled(..))`, not behaviour.
- Game.StartHalfInning: the event's `subseasonal_mod_effects` (always empty) is not modelled. Neither are the fixed empty fields of `GameEvent`, `StrikeLooking`, `Ball` and `BatterUp` (`unscatter`, `attractor_secret_base`, `pitch`, item damage, `inhabiting`, `is_repeating`) or `TogglePerforming.sub_event`.
- The roster snapshot `World` and its queries are not part of the source. They are modelled as maps from ids to teams and players.
  - `players_on_team` resolves the lineup, then the rotation.
  - `any_player_on_team_has_mod` fails on an unknown team, and otherwise tells whether some resolved slot holds the modifier.
- The external event library's types and identifiers are reduced to the fields the simulator uses. Every weather the dispatch does not name is one `Unlisted` variant. Every event without a per-game header is one `NonGame` variant.
- Deserialisation, the serde attributes and all the schema fields the logic does not read are left out.
- The text written by the `Display` impls (`Team: …`, `Player: …`) is not modelled; only the name choice is.
- The `anyhow` error message strings are not modelled. Each error is a `Failure` value naming what was missing.
- Sim.Check: the event fields the model drops (listed above) also drop out of the comparison. A recorded event that differs from the simulated one only in such a field (`is_repeating`, `subseasonal_mod_effects`, `unscatter`, …) is `Validated` here, where the source's `assert_eq!` would panic.
- Sim.Sim.constructor and Sim.Sim.CheckNextEvent work against an abstract game type and tick function, not `Game`, because the source's calls do not match `Game`'s signatures.
  - Its stream is held as a value (`Rng.RngState`) that the tick function threads, rather than as a shared `Rng` object.
  - For the same reason, the source's comparison of a recorded event with a tick's `Result` is modelled as a comparison with the tick's event.
