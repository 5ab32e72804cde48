/** One game as a phase-driven state machine: every tick produces the next
    event the simulator believes the game should emit. The class `Game` keeps
    the source's mutable fields and updates them in the source's order; the
    pure functions below (`Step` and one function per phase) say what a tick
    does to the game's state, the random stream and the result, and the
    lemmas state what the state machine promises. */
module Game {
  import opened Wrappers
  import opened ChroniclerSchema
  import opened Roster
  import Fed
  import Rng

  /** The modifier that triggers the pre-game announcement. */
  const Superyummy: string := "SUPERYUMMY"

  /** The hard-coded table from item identifiers to display names. */
  const ItemNames: map<string, string> := map["AN_ACTUAL_AIRPLANE" := "An Actual Airplane"]

  /** Chance below which an event-producing weather fires on a pitch. */
  const WeatherThreshold: real := 0.00025

  /** `x as usize` on a 64-bit target for a signed 64- or 32-bit `x`:
      negative values wrap to the top of the unsigned range. */
  const UsizeModulus: int := 0x1_0000_0000_0000_0000

  datatype GamePhase =
    | NotStarted
    | Starting
    | StartOfHalfInning
    | SuperyummyAnnouncement
    | BatterUp
    | Pitch

  /** What can be looked up and not found. */
  datatype Entity = BattingTeam | PitchingTeam | TeamRoster | RosterSlot | Batter | Pitcher | ItemName

  /** The places where the source stops with `todo!()`. */
  datatype Unfinished = SwungPitch | WeatherEvent(weather: Fed.Weather)

  /** Every way a tick can fail: the source's `anyhow` errors, plus the two
      panics (`todo!()` and a remainder by an empty lineup's length) that a
      tick can reach. */
  datatype Failure =
    | Missing(what: Entity)
    | NoSuperyummyPlayer
    | UnknownWeather(weather: Fed.Weather)
    | Unmodelled(site: Unfinished)
    | EmptyLineup

  /** The part of a game fixed at creation. */
  datatype Fixture = Fixture(
    gameId: Fed.Uuid,
    homeTeam: Fed.Uuid,
    awayTeam: Fed.Uuid,
    weather: Fed.Weather,
    stadiumId: Option<Fed.Uuid>)

  /** The part of a game a tick changes; the two batter counts live in the
      per-team records (`GameByTeam`) in the source. */
  datatype GameState = GameState(
    phase: GamePhase,
    play: int,
    topOfInning: bool,
    inning: int,
    homeBatterCount: int,
    awayBatterCount: int)

  /** A tick that draws no random numbers: the new state and the result. */
  datatype Transition = Transition(state: GameState, result: Result<Fed.EventData, Failure>)

  /** A tick: the new state, the new random-stream state and the result. */
  datatype Outcome = Outcome(state: GameState, rng: Rng.RngState, result: Result<Fed.EventData, Failure>)

  /** A weather roll: an optional weather event, and the new random-stream state. */
  datatype WeatherRoll = WeatherRoll(result: Result<Option<Fed.EventData>, Failure>, rng: Rng.RngState)

  /** A fresh game: not started, play 0, at the "bottom of the zeroth" inning
      so that the first half-inning start moves to the top of the first, and
      no batter sent up on either side. */
  function InitialState(): GameState {
    GameState(NotStarted, 0, false, -1, -1, -1)
  }

  // ---------------------------------------------------------------- sides

  /** The away team bats in the top of an inning, the home team in the bottom. */
  function BattingTeamId(fixture: Fixture, s: GameState): Fed.Uuid {
    if s.topOfInning then fixture.awayTeam else fixture.homeTeam
  }

  function PitchingTeamId(fixture: Fixture, s: GameState): Fed.Uuid {
    if s.topOfInning then fixture.homeTeam else fixture.awayTeam
  }

  function BattingCount(s: GameState): int {
    if s.topOfInning then s.awayBatterCount else s.homeBatterCount
  }

  function WithBattingCount(s: GameState, count: int): GameState {
    if s.topOfInning then s.(awayBatterCount := count) else s.(homeBatterCount := count)
  }

  /** The pitching side of a half-inning is the batting side of the other half. */
  lemma SidesSwap(fixture: Fixture, s: GameState)
    ensures PitchingTeamId(fixture, s) == BattingTeamId(fixture, s.(topOfInning := !s.topOfInning))
    ensures BattingTeamId(fixture, s) == PitchingTeamId(fixture, s.(topOfInning := !s.topOfInning))
    ensures {BattingTeamId(fixture, s), PitchingTeamId(fixture, s)} == {fixture.homeTeam, fixture.awayTeam}
  {
  }

  /** The header of the event a tick emits, stamped with the current play. */
  function Header(fixture: Fixture, s: GameState): Fed.GameEvent {
    Fed.GameEvent(fixture.gameId, fixture.homeTeam, fixture.awayTeam, s.play)
  }

  /** The state after `game_event` has stamped an event. */
  function Played(s: GameState): GameState {
    s.(play := s.play + 1)
  }

  // -------------------------------------------------------------- lookups

  function AsUsize(x: int): int {
    if x < 0 then x + UsizeModulus else x
  }

  /** The lineup index chosen by `count as usize % len`. */
  function LineupSlot(count: int, len: nat): (i: nat)
    requires 0 < len
    ensures i < len
    ensures 0 <= count < len ==> i == count
  {
    AsUsize(count) % len
  }

  /** A positive multiple of a positive length is at least that length. */
  lemma {:induction false} MultipleAtLeast(k: int, len: int)
    requires 1 <= k && 0 < len
    ensures k * len >= len
    decreases k
  {
    if k > 1 {
      MultipleAtLeast(k - 1, len);
      assert k * len == (k - 1) * len + len;
    }
  }

  /** Quotient and remainder are unique: `x == q * len + r` with
      `0 <= r < len` fixes `x % len` to `r`. */
  lemma ModOfMultiple(x: int, len: int, q: int, r: int)
    requires 0 < len && 0 <= r < len && x == q * len + r
    ensures x % len == r
  {
    var d := x / len;
    var k := q - d;
    assert x == d * len + x % len;
    assert k * len == q * len - d * len;
    if k >= 1 {
      MultipleAtLeast(k, len);
    } else if k <= -1 {
      MultipleAtLeast(-k, len);
    }
  }

  /** Lineup indexing is cyclic: one more batter moves one slot on, wrapping
      from the last slot to the first, and a whole lineup more comes back to
      the same slot. */
  lemma LineupWraps(count: int, len: nat)
    requires 0 < len && 0 <= count
    ensures LineupSlot(count + 1, len) == if LineupSlot(count, len) == len - 1 then 0 else LineupSlot(count, len) + 1
    ensures LineupSlot(count + len, len) == LineupSlot(count, len)
  {
    var q := count / len;
    var r := count % len;
    assert count == q * len + r;
    assert LineupSlot(count, len) == r;
    assert count + len == (q + 1) * len + r;
    if r == len - 1 {
      assert count + 1 == (q + 1) * len + 0;
      ModOfMultiple(count + 1, len, q + 1, 0);
    } else {
      ModOfMultiple(count + 1, len, q, r + 1);
    }
    ModOfMultiple(count + len, len, q + 1, r);
  }

  /** The current batter: the batting team's lineup entry at its batter
      count, and the batting team. */
  function GetBatterAndTeam(fixture: Fixture, s: GameState, world: World): (r: Result<(Player, Team), Failure>)
    ensures r.Ok? ==>
      GetTeam(world, BattingTeamId(fixture, s)) == Some(r.value.1) && r.value.1.lineup != [] &&
      GetPlayer(world, r.value.1.lineup[LineupSlot(BattingCount(s), |r.value.1.lineup|)]) == Some(r.value.0)
    ensures GetTeam(world, BattingTeamId(fixture, s)).None? ==> r == Err(Missing(BattingTeam))
    ensures r == Err(EmptyLineup) <==>
      GetTeam(world, BattingTeamId(fixture, s)).Some? && GetTeam(world, BattingTeamId(fixture, s)).value.lineup == []
    ensures var team := GetTeam(world, BattingTeamId(fixture, s));
      team.Some? && team.value.lineup != [] ==>
        (r.Ok? <==> GetPlayer(world, team.value.lineup[LineupSlot(BattingCount(s), |team.value.lineup|)]).Some?) &&
        (r.Err? ==> r.error == Missing(Batter))
  {
    match GetTeam(world, BattingTeamId(fixture, s))
    case None => Err(Missing(BattingTeam))
    case Some(team) =>
      if |team.lineup| == 0 then Err(EmptyLineup)
      else
        match GetPlayer(world, team.lineup[LineupSlot(BattingCount(s), |team.lineup|)])
        case None => Err(Missing(Batter))
        case Some(batter) => Ok((batter, team))
  }

  /** The current pitcher. Like the source, this indexes the pitching team's
      LINEUP (not its rotation) by its rotation slot. */
  function GetPitcherAndTeam(fixture: Fixture, s: GameState, world: World): (r: Result<(Player, Team), Failure>)
    ensures r.Ok? ==>
      GetTeam(world, PitchingTeamId(fixture, s)) == Some(r.value.1) && r.value.1.lineup != [] &&
      GetPlayer(world, r.value.1.lineup[LineupSlot(r.value.1.rotationSlot, |r.value.1.lineup|)]) == Some(r.value.0)
    ensures GetTeam(world, PitchingTeamId(fixture, s)).None? ==> r == Err(Missing(PitchingTeam))
    ensures r == Err(EmptyLineup) <==>
      GetTeam(world, PitchingTeamId(fixture, s)).Some? && GetTeam(world, PitchingTeamId(fixture, s)).value.lineup == []
    ensures var team := GetTeam(world, PitchingTeamId(fixture, s));
      team.Some? && team.value.lineup != [] ==>
        (r.Ok? <==> GetPlayer(world, team.value.lineup[LineupSlot(team.value.rotationSlot, |team.value.lineup|)]).Some?) &&
        (r.Err? ==> r.error == Missing(Pitcher))
  {
    match GetTeam(world, PitchingTeamId(fixture, s))
    case None => Err(Missing(PitchingTeam))
    case Some(team) =>
      if |team.lineup| == 0 then Err(EmptyLineup)
      else
        match GetPlayer(world, team.lineup[LineupSlot(team.rotationSlot, |team.lineup|)])
        case None => Err(Missing(Pitcher))
        case Some(pitcher) => Ok((pitcher, team))
  }

  /** The display name of the item a batter wields: none without a bat or
      with an empty one, the table's name for a known one, and an error for
      an item the table does not list. */
  function WieldingItem(bat: Option<string>): (r: Result<Option<string>, Failure>)
    ensures r == Ok(None) <==> bat.None? || bat == Some("")
    ensures r.Ok? && r.value.Some? <==> bat.Some? && bat.value in ItemNames
    ensures r.Ok? && r.value.Some? ==> r.value.value == ItemNames[bat.value]
    ensures r.Err? ==> r.error == Missing(ItemName)
  {
    match bat
    case None => Ok(None)
    case Some(b) =>
      if b == "" then Ok(None)
      else if b in ItemNames then Ok(Some(ItemNames[b]))
      else Err(Missing(ItemName))
  }

  // ----------------------------------------------------------- superyummy

  /** No slot in `slots[i..k]` is unresolved or holds a player with the modifier. */
  ghost predicate PassedOver(slots: seq<Option<Player>>, modName: string, i: nat, k: nat)
    requires i <= k <= |slots|
  {
    forall j :: i <= j < k ==> slots[j].Some? && !HasMod(slots[j].value, modName)
  }

  /** The inner loop of the announcement search over one team's slots from
      `i` on: the first player with the modifier, `None` when there is none,
      and an error at the first slot that does not resolve. */
  function SearchSlots(slots: seq<Option<Player>>, modName: string, i: nat): (r: Result<Option<Player>, Failure>)
    requires i <= |slots|
    ensures r.Ok? && r.value.Some? ==> HasMod(r.value.value, modName)
    ensures r.Err? ==> r.error == Missing(RosterSlot)
    decreases |slots| - i
  {
    if i == |slots| then Ok(None)
    else if slots[i].None? then Err(Missing(RosterSlot))
    else if HasMod(slots[i].value, modName) then Ok(slots[i])
    else SearchSlots(slots, modName, i + 1)
  }

  /** The slot search stops at the first slot that is unresolved or holds a
      player with the modifier, and reports `None` exactly when it passes
      over every slot. */
  lemma {:induction false} SearchSlotsFirst(slots: seq<Option<Player>>, modName: string, i: nat)
    requires i <= |slots|
    ensures var r := SearchSlots(slots, modName, i);
      && (r.Ok? && r.value.Some? ==>
            exists k :: i <= k < |slots| && slots[k] == r.value && PassedOver(slots, modName, i, k))
      && (r == Ok(None) <==> PassedOver(slots, modName, i, |slots|))
      && (r.Err? ==> exists k :: i <= k < |slots| && slots[k].None? && PassedOver(slots, modName, i, k))
    decreases |slots| - i
  {
    var r := SearchSlots(slots, modName, i);
    if i == |slots| {
    } else if slots[i].None? {
      assert PassedOver(slots, modName, i, i);
      assert !PassedOver(slots, modName, i, |slots|);
    } else if HasMod(slots[i].value, modName) {
      assert PassedOver(slots, modName, i, i);
      assert !PassedOver(slots, modName, i, |slots|);
    } else {
      SearchSlotsFirst(slots, modName, i + 1);
      assert r == SearchSlots(slots, modName, i + 1);
      if r.Ok? && r.value.Some? {
        var k :| i + 1 <= k < |slots| && slots[k] == r.value && PassedOver(slots, modName, i + 1, k);
        assert PassedOver(slots, modName, i, k);
      }
      if r.Err? {
        var k :| i + 1 <= k < |slots| && slots[k].None? && PassedOver(slots, modName, i + 1, k);
        assert PassedOver(slots, modName, i, k);
      }
      assert PassedOver(slots, modName, i, |slots|) <==> PassedOver(slots, modName, i + 1, |slots|);
    }
  }

  /** The announcement search over several teams in order: the first player
      with the modifier and that player's team. */
  function SearchTeams(world: World, teamIds: seq<Fed.Uuid>, modName: string): (r: Result<(Player, Fed.Uuid), Failure>)
    ensures r.Ok? ==> HasMod(r.value.0, modName) && r.value.1 in teamIds
    ensures r.Ok? ==> PlayersOnTeam(world, r.value.1).Some? && Some(r.value.0) in PlayersOnTeam(world, r.value.1).value
  {
    if teamIds == [] then Err(NoSuperyummyPlayer)
    else
      match PlayersOnTeam(world, teamIds[0])
      case None => Err(Missing(TeamRoster))
      case Some(slots) =>
        match SearchSlots(slots, modName, 0)
        case Err(e) => Err(e)
        case Ok(Some(p)) => SearchSlotsFirst(slots, modName, 0); Ok((p, teamIds[0]))
        case Ok(None) => SearchTeams(world, teamIds[1..], modName)
  }

  /** The teams before position `k` are all known and searched without a
      match or an unresolved slot. */
  ghost predicate TeamsPassedOver(world: World, teamIds: seq<Fed.Uuid>, modName: string, k: nat)
    requires k <= |teamIds|
  {
    forall j :: 0 <= j < k ==>
      PlayersOnTeam(world, teamIds[j]).Some? && SearchSlots(PlayersOnTeam(world, teamIds[j]).value, modName, 0) == Ok(None)
  }

  /** The search takes the teams strictly in order: it stops at the first
      team that is unknown or whose slot search does not pass over it, and
      reports that nobody holds the modifier exactly when every team is
      passed over. */
  lemma {:induction false} SearchTeamsFirst(world: World, teamIds: seq<Fed.Uuid>, modName: string)
    ensures var r := SearchTeams(world, teamIds, modName);
      && (r == Err(NoSuperyummyPlayer) <==> TeamsPassedOver(world, teamIds, modName, |teamIds|))
      && (r != Err(NoSuperyummyPlayer) ==>
            exists k :: 0 <= k < |teamIds| && TeamsPassedOver(world, teamIds, modName, k) &&
              match PlayersOnTeam(world, teamIds[k])
              case None => r == Err(Missing(TeamRoster))
              case Some(slots) =>
                match SearchSlots(slots, modName, 0)
                case Ok(found) => found.Some? && r == Ok((found.value, teamIds[k]))
                case Err(e) => r == Err(e))
  {
    var r := SearchTeams(world, teamIds, modName);
    if teamIds == [] {
      return;
    }
    assert TeamsPassedOver(world, teamIds, modName, 0);
    var first := PlayersOnTeam(world, teamIds[0]);
    if first.None? || SearchSlots(first.value, modName, 0) != Ok(None) {
      assert !TeamsPassedOver(world, teamIds, modName, |teamIds|);
      return;
    }
    var rest := teamIds[1..];
    SearchTeamsFirst(world, rest, modName);
    assert r == SearchTeams(world, rest, modName);
    assert forall j :: 0 <= j < |rest| ==> rest[j] == teamIds[j + 1];
    assert TeamsPassedOver(world, teamIds, modName, |teamIds|) <==> TeamsPassedOver(world, rest, modName, |rest|) by {
      if TeamsPassedOver(world, rest, modName, |rest|) {
        forall j | 0 <= j < |teamIds|
          ensures PlayersOnTeam(world, teamIds[j]).Some? && SearchSlots(PlayersOnTeam(world, teamIds[j]).value, modName, 0) == Ok(None)
        {
          if j > 0 {
            assert teamIds[j] == rest[j - 1];
          }
        }
      }
    }
    if r != Err(NoSuperyummyPlayer) {
      var k :| 0 <= k < |rest| && TeamsPassedOver(world, rest, modName, k) &&
        match PlayersOnTeam(world, rest[k])
        case None => r == Err(Missing(TeamRoster))
        case Some(slots) =>
          match SearchSlots(slots, modName, 0)
          case Ok(found) => found.Some? && r == Ok((found.value, rest[k]))
          case Err(e) => r == Err(e);
      assert TeamsPassedOver(world, teamIds, modName, k + 1) by {
        forall j | 0 <= j < k + 1
          ensures PlayersOnTeam(world, teamIds[j]).Some? && SearchSlots(PlayersOnTeam(world, teamIds[j]).value, modName, 0) == Ok(None)
        {
          if j > 0 {
            assert teamIds[j] == rest[j - 1];
          }
        }
      }
      assert teamIds[k + 1] == rest[k];
    }
  }

  /** In a fully resolved team, the slot search succeeds exactly when some
      player has the modifier. */
  lemma SearchSlotsResolved(slots: seq<Option<Player>>, modName: string)
    requires forall j :: 0 <= j < |slots| ==> slots[j].Some?
    ensures SearchSlots(slots, modName, 0).Ok?
    ensures SearchSlots(slots, modName, 0).value.Some? <==>
      exists j :: 0 <= j < |slots| && slots[j].Some? && HasMod(slots[j].value, modName)
  {
    SearchSlotsFirst(slots, modName, 0);
  }

  /** Whether the batting or the pitching team has a player with the modifier,
      asking about the batting team first and the pitching team only when the
      batting team has none. */
  function SuperyummyOnField(fixture: Fixture, s: GameState, world: World): (r: Result<bool, Failure>)
    ensures r == Ok(true) <==>
      AnyPlayerOnTeamHasMod(world, BattingTeamId(fixture, s), Superyummy) == Some(true) ||
      (AnyPlayerOnTeamHasMod(world, BattingTeamId(fixture, s), Superyummy) == Some(false) &&
       AnyPlayerOnTeamHasMod(world, PitchingTeamId(fixture, s), Superyummy) == Some(true))
    ensures r.Err? ==> r.error == Missing(TeamRoster)
    ensures r.Err? <==>
      AnyPlayerOnTeamHasMod(world, BattingTeamId(fixture, s), Superyummy).None? ||
      (AnyPlayerOnTeamHasMod(world, BattingTeamId(fixture, s), Superyummy) == Some(false) &&
       AnyPlayerOnTeamHasMod(world, PitchingTeamId(fixture, s), Superyummy).None?)
  {
    match AnyPlayerOnTeamHasMod(world, BattingTeamId(fixture, s), Superyummy)
    case None => Err(Missing(TeamRoster))
    case Some(true) => Ok(true)
    case Some(false) =>
      match AnyPlayerOnTeamHasMod(world, PitchingTeamId(fixture, s), Superyummy)
      case None => Err(Missing(TeamRoster))
      case Some(b) => Ok(b)
  }

  // ------------------------------------------------------------- pitching

  /** A pitch is a strike when the first roll is below this. */
  function StrikeThreshold(pitcher: Player, batter: Player): real {
    0.2 + 0.35 * pitcher.ruthlessness + 0.1 * batter.musclitude
  }

  /** The threshold for a ball, clamped into [0.1, 0.95]. */
  function ClampThreshold(x: real): (t: real)
    ensures 0.1 <= t <= 0.95
    ensures 0.1 <= x <= 0.95 ==> t == x
    ensures x > 0.95 ==> t == 0.95
    ensures x < 0.1 ==> t == 0.1
  {
    var t := if x > 0.95 then 0.95 else x;
    if t < 0.1 then 0.1 else t
  }

  /** The batter swings when the second roll is below this. */
  function SwingThreshold(isStrike: bool, batter: Player, pitcher: Player): (t: real)
    ensures !isStrike ==> 0.1 <= t <= 0.95
  {
    if isStrike then
      var combinedBatting := (batter.divinity + batter.musclitude + (1.0 - batter.patheticism) + batter.thwackability) / 4.0;
      0.7 + 0.35 * combinedBatting - 0.4 * pitcher.ruthlessness
    else
      ClampThreshold((12.0 * pitcher.ruthlessness - 5.0 * batter.moxie + 5.0 * batter.patheticism) / 20.0)
  }

  /** A more ruthless pitcher throws strikes more often, makes a strike
      harder to swing at, and makes a ball no less tempting. */
  lemma RuthlessnessMonotone(batter: Player, pitcher: Player, tougher: Player)
    requires tougher.ruthlessness >= pitcher.ruthlessness
    ensures StrikeThreshold(tougher, batter) >= StrikeThreshold(pitcher, batter)
    ensures SwingThreshold(true, batter, tougher) <= SwingThreshold(true, batter, pitcher)
    ensures SwingThreshold(false, batter, tougher) >= SwingThreshold(false, batter, pitcher)
  {
  }

  // --------------------------------------------------------------- weather

  /** Weathers that never produce an event and draw nothing. */
  predicate Inert(w: Fed.Weather) {
    w.Sun2? || w.BlackHole? || w.Coffee? || w.Coffee2? || w.Coffee3s? || w.PolarityPlus? ||
    w.PolarityMinus? || w.Sun90? || w.SunPoint1? || w.SumSun? || w.BlackHoleBlackHole?
  }

  /** Weathers that draw once and would fire below `WeatherThreshold`. */
  predicate Rolled(w: Fed.Weather) {
    w.SolarEclipse? || w.Blooddrain? || w.Peanuts? || w.Birds? || w.Feedback? || w.Reverb? ||
    w.Flooding? || w.Salmon? || w.SupernovaEclipse? || w.Night?
  }

  /** Weathers whose handling is unfinished outright. */
  predicate Unhandled(w: Fed.Weather) {
    w.Snowy? || w.Glitter? || w.Jazz?
  }

  /** One weather draw: nothing happens at or above the threshold; the event
      below it is unfinished. */
  function ThresholdRoll(weather: Fed.Weather, rng: Rng.RngState): (r: WeatherRoll)
    ensures r.rng == Rng.Draw(rng).0
    ensures r.result == Ok(None) || r.result == Err(Unmodelled(WeatherEvent(weather)))
    ensures r.result == Ok(None) <==> Rng.DrawValue(Rng.Draw(rng).1) >= WeatherThreshold
  {
    var (next, bits) := Rng.Draw(rng);
    if Rng.DrawValue(bits) < WeatherThreshold then WeatherRoll(Err(Unmodelled(WeatherEvent(weather))), next)
    else WeatherRoll(Ok(None), next)
  }

  /** The weather check that precedes every pitch, arm by arm. */
  function WeatherStep(weather: Fed.Weather, rng: Rng.RngState): WeatherRoll {
    match weather
    case Sun2 => WeatherRoll(Ok(None), rng)
    case Snowy => WeatherRoll(Err(Unmodelled(WeatherEvent(weather))), rng)
    case SolarEclipse => ThresholdRoll(weather, rng)
    case Glitter => WeatherRoll(Err(Unmodelled(WeatherEvent(weather))), rng)
    case Blooddrain => ThresholdRoll(weather, rng)
    case Peanuts => ThresholdRoll(weather, rng)
    case Birds => ThresholdRoll(weather, rng)
    case Feedback => ThresholdRoll(weather, rng)
    case Reverb => ThresholdRoll(weather, rng)
    case BlackHole => WeatherRoll(Ok(None), rng)
    case Coffee => WeatherRoll(Ok(None), rng)
    case Coffee2 => WeatherRoll(Ok(None), rng)
    case Coffee3s => WeatherRoll(Ok(None), rng)
    case Flooding => ThresholdRoll(weather, rng)
    case Salmon => ThresholdRoll(weather, rng)
    case PolarityPlus => WeatherRoll(Ok(None), rng)
    case PolarityMinus => WeatherRoll(Ok(None), rng)
    case Sun90 => WeatherRoll(Ok(None), rng)
    case SunPoint1 => WeatherRoll(Ok(None), rng)
    case SumSun => WeatherRoll(Ok(None), rng)
    case SupernovaEclipse => ThresholdRoll(weather, rng)
    case BlackHoleBlackHole => WeatherRoll(Ok(None), rng)
    case Jazz => WeatherRoll(Err(Unmodelled(WeatherEvent(weather))), rng)
    case Night => ThresholdRoll(weather, rng)
    case Unlisted(_) => WeatherRoll(Err(UnknownWeather(weather)), rng)
  }

  /** Weathers that draw nothing: the inert ones pass, the unfinished ones
      and every unlisted weather fail. */
  lemma WeatherWithoutDraw(weather: Fed.Weather, rng: Rng.RngState)
    ensures Inert(weather) ==> WeatherStep(weather, rng) == WeatherRoll(Ok(None), rng)
    ensures Unhandled(weather) ==> WeatherStep(weather, rng) == WeatherRoll(Err(Unmodelled(WeatherEvent(weather))), rng)
    ensures weather.Unlisted? ==> WeatherStep(weather, rng) == WeatherRoll(Err(UnknownWeather(weather)), rng)
  {
  }

  /** Weathers that roll: one draw, passing at or above the threshold and
      failing (unfinished) below it. */
  lemma WeatherWithDraw(weather: Fed.Weather, rng: Rng.RngState)
    requires Rolled(weather)
    ensures var r := WeatherStep(weather, rng);
      && r.rng == Rng.Draw(rng).0
      && (r.result == Ok(None) <==> Rng.DrawValue(Rng.Draw(rng).1) >= WeatherThreshold)
      && (r.result.Err? <==> r.result == Err(Unmodelled(WeatherEvent(weather))))
  {
    assert WeatherStep(weather, rng) == ThresholdRoll(weather, rng);
  }

  /** No weather yet produces an event: the check passes or fails. */
  lemma WeatherNeverFires(weather: Fed.Weather, rng: Rng.RngState)
    ensures WeatherStep(weather, rng).result.Ok? ==> WeatherStep(weather, rng).result.value.None?
  {
    if Rolled(weather) {
      WeatherWithDraw(weather, rng);
    } else {
      WeatherWithoutDraw(weather, rng);
    }
  }

  /** The weather check consumes at most one draw. */
  lemma WeatherDrawsAtMostOnce(weather: Fed.Weather, rng: Rng.RngState)
    ensures var r := WeatherStep(weather, rng); r.rng == rng || r.rng == Rng.Draw(rng).0
  {
    if Rolled(weather) {
      WeatherWithDraw(weather, rng);
    } else {
      WeatherWithoutDraw(weather, rng);
    }
  }

  // ------------------------------------------------------------ the phases

  function LetsGoStep(fixture: Fixture, s: GameState): Transition {
    var s1 := s.(phase := Starting);
    Transition(Played(s1), Ok(Fed.LetsGo(Header(fixture, s1), fixture.weather, fixture.stadiumId)))
  }

  function PlayBallStep(fixture: Fixture, s: GameState): Transition {
    var s1 := s.(phase := StartOfHalfInning);
    Transition(Played(s1), Ok(Fed.PlayBall(Header(fixture, s1))))
  }

  /** Before the first half-inning the game detours through the announcement
      when either side fields a SUPERYUMMY player. The roster queries fail
      before anything changes; the batting team's name is looked up after
      the event has been stamped. */
  function HalfInningStep(fixture: Fixture, s: GameState, world: World): Transition {
    var detour := if s.inning < 0 then SuperyummyOnField(fixture, s, world) else Ok(false);
    if detour.Err? then Transition(s, Err(detour.error))
    else
      var s1 := s.(phase := if detour.value then SuperyummyAnnouncement else GamePhase.BatterUp,
                   topOfInning := !s.topOfInning,
                   inning := s.inning + 1);
      match GetTeam(world, BattingTeamId(fixture, s1))
      case None => Transition(Played(s1), Err(Missing(BattingTeam)))
      case Some(team) =>
        Transition(Played(s1), Ok(Fed.HalfInningStart(Header(fixture, s1), s1.topOfInning, s1.inning + 1, team.fullName)))
  }

  function AnnouncementStep(fixture: Fixture, s: GameState, world: World): Transition {
    var s1 := s.(phase := GamePhase.BatterUp);
    match SearchTeams(world, [BattingTeamId(fixture, s1), PitchingTeamId(fixture, s1)], Superyummy)
    case Err(e) => Transition(s1, Err(e))
    case Ok((player, teamId)) =>
      Transition(Played(s1), Ok(Fed.SuperyummyGameStart(Header(fixture, s1),
        Fed.TogglePerforming(player.id, teamId, player.name, false, true))))
  }

  /** The batting side's count moves on before the batter is looked up. */
  function BatterUpStep(fixture: Fixture, s: GameState, world: World): Transition {
    var s1 := WithBattingCount(s.(phase := Pitch), BattingCount(s) + 1);
    match GetBatterAndTeam(fixture, s1, world)
    case Err(e) => Transition(s1, Err(e))
    case Ok((batter, team)) =>
      match WieldingItem(batter.bat)
      case Err(e) => Transition(Played(s1), Err(e))
      case Ok(item) => Transition(Played(s1), Ok(Fed.BatterUp(Header(fixture, s1), batter.name, team.nickname, item)))
  }

  /** A thrown pitch: one roll decides strike or ball, a second decides the
      swing; only an unswung pitch is finished. */
  function ActualPitchStep(fixture: Fixture, s: GameState, world: World, rng: Rng.RngState): Outcome {
    var (afterFirst, firstBits) := Rng.Draw(rng);
    var roll := Rng.DrawValue(firstBits);
    match GetBatterAndTeam(fixture, s, world)
    case Err(e) => Outcome(s, afterFirst, Err(e))
    case Ok((batter, _)) =>
      match GetPitcherAndTeam(fixture, s, world)
      case Err(e) => Outcome(s, afterFirst, Err(e))
      case Ok((pitcher, _)) =>
        var isStrike := roll < StrikeThreshold(pitcher, batter);
        var (afterSecond, secondBits) := Rng.Draw(afterFirst);
        var swung := Rng.DrawValue(secondBits) < SwingThreshold(isStrike, batter, pitcher);
        if swung then Outcome(s, afterSecond, Err(Unmodelled(SwungPitch)))
        else if isStrike then Outcome(Played(s), afterSecond, Ok(Fed.StrikeLooking(Header(fixture, s), 0, 1)))
        else Outcome(Played(s), afterSecond, Ok(Fed.Ball(Header(fixture, s), 1, 0)))
  }

  function PitchStep(fixture: Fixture, s: GameState, world: World, rng: Rng.RngState): Outcome {
    var w := WeatherStep(fixture.weather, rng);
    match w.result
    case Err(e) => Outcome(s, w.rng, Err(e))
    case Ok(Some(event)) => Outcome(s, w.rng, Ok(event))
    case Ok(None) => ActualPitchStep(fixture, s, world, w.rng)
  }

  function Lift(t: Transition, rng: Rng.RngState): Outcome {
    Outcome(t.state, rng, t.result)
  }

  /** One tick, dispatched on the phase. */
  function Step(fixture: Fixture, s: GameState, world: World, rng: Rng.RngState): Outcome {
    match s.phase
    case NotStarted => Lift(LetsGoStep(fixture, s), rng)
    case Starting => Lift(PlayBallStep(fixture, s), rng)
    case StartOfHalfInning => Lift(HalfInningStep(fixture, s, world), rng)
    case SuperyummyAnnouncement => Lift(AnnouncementStep(fixture, s, world), rng)
    case BatterUp => Lift(BatterUpStep(fixture, s, world), rng)
    case Pitch => PitchStep(fixture, s, world, rng)
  }

  // ------------------------------------------------------ the state machine

  /** The phase order: each phase and the phases a tick may move it to. */
  predicate MayFollow(from: GamePhase, to: GamePhase) {
    match from
    case NotStarted => to == Starting
    case Starting => to == StartOfHalfInning
    case StartOfHalfInning => to == SuperyummyAnnouncement || to == GamePhase.BatterUp
    case SuperyummyAnnouncement => to == GamePhase.BatterUp
    case BatterUp => to == Pitch
    case Pitch => to == Pitch
  }

  /** What every tick promises: the phase stays or follows the phase order,
      and follows it whenever the tick succeeds; a successful tick emits
      exactly one event, stamped with the play counter it then bumps; a
      failing tick bumps the play counter at most once. */
  ghost predicate Orderly(fixture: Fixture, s: GameState, o: Outcome) {
    && (o.state.phase == s.phase || MayFollow(s.phase, o.state.phase))
    && (o.result.Ok? ==> MayFollow(s.phase, o.state.phase))
    && (o.result.Ok? ==> o.state.play == s.play + 1 && o.result.value.Game() == Some(Header(fixture, s)))
    && (o.state.play == s.play || o.state.play == s.play + 1)
  }

  lemma ActualPitchOrderly(fixture: Fixture, s: GameState, world: World, rng: Rng.RngState)
    requires s.phase == Pitch
    ensures Orderly(fixture, s, ActualPitchStep(fixture, s, world, rng))
  {
  }

  lemma PitchTickOrderly(fixture: Fixture, s: GameState, world: World, rng: Rng.RngState)
    requires s.phase == Pitch
    ensures Orderly(fixture, s, PitchStep(fixture, s, world, rng))
    ensures PitchStep(fixture, s, world, rng).result.Err? ==> PitchStep(fixture, s, world, rng).state == s
  {
    WeatherNeverFires(fixture.weather, rng);
    var w := WeatherStep(fixture.weather, rng);
    if w.result == Ok(None) {
      ActualPitchOrderly(fixture, s, world, w.rng);
    }
  }

  lemma HalfInningTickOrderly(fixture: Fixture, s: GameState, world: World, rng: Rng.RngState)
    requires s.phase == StartOfHalfInning
    ensures Orderly(fixture, s, Lift(HalfInningStep(fixture, s, world), rng))
  {
  }

  /** What each tick may touch: only the half-inning start moves the inning
      and the top/bottom flag, only sending up a batter moves the batter
      counts, and only a pitch draws. */
  lemma StepFrame(fixture: Fixture, s: GameState, world: World, rng: Rng.RngState)
    ensures var o := Step(fixture, s, world, rng);
      && (s.phase != StartOfHalfInning ==> o.state.topOfInning == s.topOfInning && o.state.inning == s.inning)
      && (s.phase != GamePhase.BatterUp ==>
            o.state.homeBatterCount == s.homeBatterCount && o.state.awayBatterCount == s.awayBatterCount)
      && (s.phase != Pitch ==> o.rng == rng)
  {
    if s.phase == Pitch {
      var w := WeatherStep(fixture.weather, rng);
      if w.result == Ok(None) {
        var a := ActualPitchStep(fixture, s, world, w.rng);
        assert a.state == s || a.state == Played(s);
      }
    }
  }

  /** Every tick is orderly. */
  lemma StepFollowsPhaseOrder(fixture: Fixture, s: GameState, world: World, rng: Rng.RngState)
    ensures Orderly(fixture, s, Step(fixture, s, world, rng))
  {
    match s.phase
    case NotStarted =>
    case Starting =>
    case StartOfHalfInning =>
      HalfInningTickOrderly(fixture, s, world, rng);
    case SuperyummyAnnouncement =>
    case BatterUp =>
    case Pitch =>
      PitchTickOrderly(fixture, s, world, rng);
  }

  /** What a failing tick leaves behind. An announcement tick always moves
      to `BatterUp`, and a failed search changes nothing else; a failed
      roster query at a half-inning start changes nothing at all; a missing
      batting team at a half-inning start is reported after the side has
      flipped, the inning has moved on and the play counter has gone up. */
  lemma FailedTickState(fixture: Fixture, s: GameState, world: World, rng: Rng.RngState)
    ensures var o := Step(fixture, s, world, rng);
      && (s.phase == SuperyummyAnnouncement ==>
            o.state.phase == GamePhase.BatterUp && (o.result.Err? ==> o.state == s.(phase := GamePhase.BatterUp)))
      && (s.phase == StartOfHalfInning && s.inning < 0 && SuperyummyOnField(fixture, s, world).Err? ==>
            o.state == s && o.result.Err?)
      && (s.phase == StartOfHalfInning && o.result == Err(Missing(BattingTeam)) ==>
            o.state.play == s.play + 1 && o.state.topOfInning == !s.topOfInning && o.state.inning == s.inning + 1)
  {
  }

  /** A half-inning start flips the side, advances the inning, and reports
      the new inning one-indexed; it detours to the announcement exactly
      before the first half-inning when a SUPERYUMMY player is on the field. */
  lemma HalfInningDetour(fixture: Fixture, s: GameState, world: World, rng: Rng.RngState)
    requires s.phase == StartOfHalfInning
    requires s.inning >= 0 || SuperyummyOnField(fixture, s, world).Ok?
    ensures var o := Step(fixture, s, world, rng);
      (o.state.phase == SuperyummyAnnouncement <==> s.inning < 0 && SuperyummyOnField(fixture, s, world) == Ok(true))
      && (o.state.phase == SuperyummyAnnouncement || o.state.phase == GamePhase.BatterUp)
      && o.state.topOfInning == !s.topOfInning
      && o.state.inning == s.inning + 1
      && (o.result.Ok? ==> o.result.value.HalfInningStart? && o.result.value.inning == s.inning + 2
                           && o.result.value.topOfInning == o.state.topOfInning)
  {
  }

  /** The roster query behind the detour: a team reports the modifier
      exactly when one of its slots resolves to a player holding it. */
  lemma OnFieldMeansPlayer(world: World, teamId: Fed.Uuid)
    requires PlayersOnTeam(world, teamId).Some?
    ensures AnyPlayerOnTeamHasMod(world, teamId, Superyummy) == Some(true) <==>
      exists p :: p in world.players.Values && HasMod(p, Superyummy) &&
        Some(p) in PlayersOnTeam(world, teamId).value
  {
    var slots := PlayersOnTeam(world, teamId).value;
    if AnyPlayerOnTeamHasMod(world, teamId, Superyummy) == Some(true) {
      var i :| 0 <= i < |slots| && slots[i].Some? && HasMod(slots[i].value, Superyummy);
      var p := slots[i].value;
      assert Some(p) in slots;
    }
  }

  /** The search over two fully resolved teams succeeds when either has a
      player with the modifier. */
  lemma SearchFindsPresentPlayer(world: World, first: Fed.Uuid, second: Fed.Uuid, modName: string)
    requires FullyResolved(world, first) && FullyResolved(world, second)
    requires AnyPlayerOnTeamHasMod(world, first, modName) == Some(true) ||
             AnyPlayerOnTeamHasMod(world, second, modName) == Some(true)
    ensures SearchTeams(world, [first, second], modName).Ok?
  {
    if AnyPlayerOnTeamHasMod(world, first, modName) == Some(true) {
      FirstTeamHolderWins(world, first, second, modName);
    } else {
      var firstSlots := PlayersOnTeam(world, first).value;
      var secondSlots := PlayersOnTeam(world, second).value;
      SearchSlotsResolved(firstSlots, modName);
      SearchSlotsResolved(secondSlots, modName);
      assert SearchSlots(firstSlots, modName, 0) == Ok(None);
      assert SearchSlots(secondSlots, modName, 0).value.Some?;
      assert [first, second][1..] == [second];
      assert SearchTeams(world, [first, second], modName) == SearchTeams(world, [second], modName);
    }
  }

  /** The batting team is searched first: when it resolves fully and holds a
      player with the modifier, that team's first such player is announced,
      whatever the pitching team holds. */
  lemma FirstTeamHolderWins(world: World, first: Fed.Uuid, second: Fed.Uuid, modName: string)
    requires FullyResolved(world, first)
    requires AnyPlayerOnTeamHasMod(world, first, modName) == Some(true)
    ensures var r := SearchTeams(world, [first, second], modName);
      r.Ok? && r.value.1 == first && SearchSlots(PlayersOnTeam(world, first).value, modName, 0) == Ok(Some(r.value.0))
  {
    SearchSlotsResolved(PlayersOnTeam(world, first).value, modName);
  }

  /** With both teams fully resolved and nobody holding the modifier, the
      search reports that there is no such player. */
  lemma NobodyHoldsIt(world: World, first: Fed.Uuid, second: Fed.Uuid, modName: string)
    requires FullyResolved(world, first) && FullyResolved(world, second)
    requires AnyPlayerOnTeamHasMod(world, first, modName) == Some(false)
    requires AnyPlayerOnTeamHasMod(world, second, modName) == Some(false)
    ensures SearchTeams(world, [first, second], modName) == Err(NoSuperyummyPlayer)
  {
    var slots1 := PlayersOnTeam(world, first).value;
    var slots2 := PlayersOnTeam(world, second).value;
    SearchSlotsResolved(slots1, modName);
    SearchSlotsResolved(slots2, modName);
    assert SearchSlots(slots1, modName, 0) == Ok(None);
    assert SearchSlots(slots2, modName, 0) == Ok(None);
    assert [first, second][1..] == [second];
    assert [second][1..] == [];
    assert SearchTeams(world, [second], modName) == SearchTeams(world, [], modName);
  }

  /** When both teams' rosters resolve fully, a detour into the announcement
      is always followed by a successful announcement of a SUPERYUMMY player
      from one of the two teams. */
  lemma AnnouncementFindsPlayer(fixture: Fixture, s: GameState, world: World, rng: Rng.RngState)
    requires s.phase == StartOfHalfInning
    requires FullyResolved(world, fixture.homeTeam) && FullyResolved(world, fixture.awayTeam)
    requires Step(fixture, s, world, rng).state.phase == SuperyummyAnnouncement
    ensures var o := Step(fixture, Step(fixture, s, world, rng).state, world, rng);
      o.result.Ok? && o.result.value.SuperyummyGameStart?
      && o.result.value.toggle.teamId in {fixture.homeTeam, fixture.awayTeam}
      && o.state.phase == GamePhase.BatterUp
  {
    var t := HalfInningStep(fixture, s, world);
    assert Step(fixture, s, world, rng) == Lift(t, rng);
    assert s.inning < 0 && SuperyummyOnField(fixture, s, world) == Ok(true);
    var s1 := t.state;
    assert s1.topOfInning == !s.topOfInning && s1.phase == SuperyummyAnnouncement;
    SidesSwap(fixture, s);
    SearchFindsPresentPlayer(world, BattingTeamId(fixture, s1), PitchingTeamId(fixture, s1), Superyummy);
    assert Step(fixture, s1, world, rng) == Lift(AnnouncementStep(fixture, s1, world), rng);
  }

  /** Sending up a batter bumps only the batting side's count, and the first
      batter of each side is the first entry of its lineup. */
  lemma BatterUpAdvancesBattingSide(fixture: Fixture, s: GameState, world: World, rng: Rng.RngState)
    requires s.phase == GamePhase.BatterUp
    ensures var o := Step(fixture, s, world, rng);
      BattingCount(o.state) == BattingCount(s) + 1
      && o.state.topOfInning == s.topOfInning
      && (if s.topOfInning then o.state.homeBatterCount == s.homeBatterCount
          else o.state.awayBatterCount == s.awayBatterCount)
      && o.state.phase == Pitch
    ensures var o := Step(fixture, s, world, rng);
      BattingCount(s) == -1 && o.result.Ok? ==>
        exists team :: GetTeam(world, BattingTeamId(fixture, s)) == Some(team) && team.lineup != [] &&
          GetPlayer(world, team.lineup[0]).Some? && o.result.value.BatterUp? &&
          o.result.value.batterName == GetPlayer(world, team.lineup[0]).value.name
  {
    var o := Step(fixture, s, world, rng);
    var s1 := WithBattingCount(s.(phase := Pitch), BattingCount(s) + 1);
    if BattingCount(s) == -1 && o.result.Ok? {
      var r := GetBatterAndTeam(fixture, s1, world);
      assert r.Ok?;
      assert BattingCount(s1) == 0;
      var team := r.value.1;
      assert LineupSlot(0, |team.lineup|) == 0;
      assert GetTeam(world, BattingTeamId(fixture, s)) == Some(team);
    }
  }

  /** A pitch whose weather stays quiet and whose batter and pitcher resolve
      draws exactly twice more: the unswung outcome is a called strike when
      the first roll is under the strike threshold and a ball otherwise. */
  lemma PitchDrawsTwice(fixture: Fixture, s: GameState, world: World, rng: Rng.RngState)
    requires s.phase == Pitch
    requires WeatherStep(fixture.weather, rng).result == Ok(None)
    requires GetBatterAndTeam(fixture, s, world).Ok? && GetPitcherAndTeam(fixture, s, world).Ok?
    ensures var w := WeatherStep(fixture.weather, rng).rng;
      var o := Step(fixture, s, world, rng);
      var batter := GetBatterAndTeam(fixture, s, world).value.0;
      var pitcher := GetPitcherAndTeam(fixture, s, world).value.0;
      var (after, rolls) := Rng.Draws(w, 2);
      var isStrike := Rng.DrawValue(rolls[0]) < StrikeThreshold(pitcher, batter);
      o.rng == after
      && (o.result.Ok? <==> Rng.DrawValue(rolls[1]) >= SwingThreshold(isStrike, batter, pitcher))
      && (o.result.Ok? ==> o.result.value == (if isStrike then Fed.StrikeLooking(Header(fixture, s), 0, 1)
                                              else Fed.Ball(Header(fixture, s), 1, 0)))
  {
    var w := WeatherStep(fixture.weather, rng).rng;
    Rng.IterateSnoc(Rng.Draw, w, 1);
    Rng.IterateSnoc(Rng.Draw, w, 0);
  }

  /** On a stream whose cache holds only zero patterns (every stream the
      generator produces), each thresholded weather rolls 0.0 and so always
      reaches its unfinished event. */
  lemma RolledWeatherAlwaysUnfinished(weather: Fed.Weather, rng: Rng.RngState)
    requires Rolled(weather) && Rng.Zeroed(rng)
    ensures WeatherStep(weather, rng).result == Err(Unmodelled(WeatherEvent(weather)))
  {
    assert Rng.DrawValue(Rng.Draw(rng).1) == 0.0 by {
      Rng.DrawZeroed(rng);
    }
    WeatherWithDraw(weather, rng);
  }

  /** A thrown pitch on a zeroed stream rolls 0.0 twice: a non-strike's swing
      threshold is at least 0.1, so the batter always swings at it. */
  lemma ActualPitchNeverBall(fixture: Fixture, s: GameState, world: World, rng: Rng.RngState)
    requires Rng.Zeroed(rng)
    ensures var o := ActualPitchStep(fixture, s, world, rng); o.result.Ok? ==> !o.result.value.Ball?
  {
    assert Rng.DrawValue(Rng.Draw(Rng.Draw(rng).0).1) == 0.0 by {
      Rng.DrawZeroed(rng);
      Rng.DrawZeroed(Rng.Draw(rng).0);
    }
    match GetBatterAndTeam(fixture, s, world)
    case Err(_) =>
    case Ok((batter, _)) =>
      match GetPitcherAndTeam(fixture, s, world)
      case Err(_) =>
      case Ok((pitcher, _)) =>
        assert SwingThreshold(false, batter, pitcher) >= 0.1;
  }

  /** On such a stream a called ball is never emitted. */
  lemma NoBallOnZeroedStream(fixture: Fixture, s: GameState, world: World, rng: Rng.RngState)
    requires s.phase == Pitch && Rng.Zeroed(rng)
    ensures var o := Step(fixture, s, world, rng); o.result.Ok? ==> !o.result.value.Ball?
  {
    WeatherNeverFires(fixture.weather, rng);
    var w := WeatherStep(fixture.weather, rng);
    if w.result == Ok(None) {
      assert Rng.Zeroed(w.rng) by {
        WeatherDrawsAtMostOnce(fixture.weather, rng);
        Rng.DrawZeroed(rng);
      }
      ActualPitchNeverBall(fixture, s, world, w.rng);
    }
  }

  // --------------------------------------------------------------- classes

  /** The per-team part of a game. */
  class GameByTeam {
    const teamId: Fed.Uuid
    var teamBatterCount: int

    constructor (teamId: Fed.Uuid)
      ensures this.teamId == teamId && teamBatterCount == -1
    {
      this.teamId := teamId;
      teamBatterCount := -1;
    }
  }

  class Game {
    const gameId: Fed.Uuid
    const home: GameByTeam
    const away: GameByTeam
    const weather: Fed.Weather
    const stadiumId: Option<Fed.Uuid>

    var phase: GamePhase
    var play: int
    var topOfInning: bool
    var inning: int

    /** The two per-team records are distinct objects. */
    ghost predicate Valid()
    {
      home != away
    }

    function Fixed(): Fixture {
      Fixture(gameId, home.teamId, away.teamId, weather, stadiumId)
    }

    function State(): GameState
      reads this, home, away
    {
      GameState(phase, play, topOfInning, inning, home.teamBatterCount, away.teamBatterCount)
    }

    constructor (gameEvent: Fed.GameEvent, weather: Fed.Weather, stadiumId: Option<Fed.Uuid>)
      ensures Valid() && fresh(home) && fresh(away)
      ensures Fixed() == Fixture(gameEvent.gameId, gameEvent.homeTeam, gameEvent.awayTeam, weather, stadiumId)
      ensures State() == InitialState()
    {
      gameId := gameEvent.gameId;
      home := new GameByTeam(gameEvent.homeTeam);
      away := new GameByTeam(gameEvent.awayTeam);
      this.weather := weather;
      this.stadiumId := stadiumId;
      phase := NotStarted;
      play := 0;
      topOfInning := false;
      inning := -1;
    }

    function BattingTeamGameData(): (side: GameByTeam)
      reads this
      ensures side.teamId == BattingTeamId(Fixed(), State())
      ensures topOfInning ==> side == away
      ensures !topOfInning ==> side == home
      ensures side == home || side == away
    {
      if topOfInning then away else home
    }

    function PitchingTeamGameData(): (side: GameByTeam)
      reads this
      ensures side.teamId == PitchingTeamId(Fixed(), State())
      ensures Valid() ==> side != BattingTeamGameData()
      ensures side == home || side == away
    {
      if topOfInning then home else away
    }

    /** Stamps the next event with the current play and moves the counter on. */
    method NextGameEvent() returns (event: Fed.GameEvent)
      modifies this
      ensures event == Header(Fixed(), old(State()))
      ensures State() == Played(old(State()))
    {
      event := Fed.GameEvent(gameId, home.teamId, away.teamId, play);
      play := play + 1;
    }

    method Tick(world: World, rng: Rng.Rng) returns (r: Result<Fed.EventData, Failure>)
      requires Valid()
      modifies this, home, away, rng
      ensures Outcome(State(), rng.State(), r) == Step(Fixed(), old(State()), world, old(rng.State()))
    {
      match phase
      case NotStarted =>
        var event := LetsGo();
        r := Ok(event);
      case Starting =>
        var event := PlayBall();
        r := Ok(event);
      case StartOfHalfInning =>
        r := StartHalfInning(world);
      case SuperyummyAnnouncement =>
        r := SuperyummyAnnouncement(world);
      case BatterUp =>
        r := BatterUp(world);
      case Pitch =>
        r := Pitch(world, rng);
    }

    method LetsGo() returns (event: Fed.EventData)
      modifies this
      ensures Transition(State(), Ok(event)) == LetsGoStep(Fixed(), old(State()))
    {
      phase := Starting;
      var game := NextGameEvent();
      event := Fed.LetsGo(game, weather, stadiumId);
    }

    method PlayBall() returns (event: Fed.EventData)
      modifies this
      ensures Transition(State(), Ok(event)) == PlayBallStep(Fixed(), old(State()))
    {
      phase := StartOfHalfInning;
      var game := NextGameEvent();
      event := Fed.PlayBall(game);
    }

    method StartHalfInning(world: World) returns (r: Result<Fed.EventData, Failure>)
      modifies this
      ensures Transition(State(), r) == HalfInningStep(Fixed(), old(State()), world)
    {
      var detour := false;
      if inning < 0 {
        var batting := AnyPlayerOnTeamHasMod(world, BattingTeamGameData().teamId, Superyummy);
        if batting.None? {
          return Err(Missing(TeamRoster));
        }
        detour := batting.value;
        if !detour {
          var pitching := AnyPlayerOnTeamHasMod(world, PitchingTeamGameData().teamId, Superyummy);
          if pitching.None? {
            return Err(Missing(TeamRoster));
          }
          detour := pitching.value;
        }
      }
      if detour {
        phase := GamePhase.SuperyummyAnnouncement;
      } else {
        phase := GamePhase.BatterUp;
      }
      topOfInning := !topOfInning;
      inning := inning + 1;
      var game := NextGameEvent();
      var team := GetTeam(world, BattingTeamGameData().teamId);
      if team.None? {
        return Err(Missing(BattingTeam));
      }
      r := Ok(Fed.HalfInningStart(game, topOfInning, inning + 1, team.value.fullName));
    }

    /** The announcement search: the batting team's slots, then the pitching
      team's, stopping at the first SUPERYUMMY player. */
    method FindSuperyummy(world: World) returns (r: Result<(Player, Fed.Uuid), Failure>)
      ensures r == SearchTeams(world, [BattingTeamId(Fixed(), State()), PitchingTeamId(Fixed(), State())], Superyummy)
    {
      var teamIds := [BattingTeamGameData().teamId, PitchingTeamGameData().teamId];
      var t := 0;
      while t < |teamIds|
        invariant 0 <= t <= |teamIds|
        invariant SearchTeams(world, teamIds, Superyummy) == SearchTeams(world, teamIds[t..], Superyummy)
      {
        var slots := PlayersOnTeam(world, teamIds[t]);
        if slots.None? {
          return Err(Missing(TeamRoster));
        }
        var i := 0;
        while i < |slots.value|
          invariant 0 <= i <= |slots.value|
          invariant SearchSlots(slots.value, Superyummy, 0) == SearchSlots(slots.value, Superyummy, i)
        {
          var player := slots.value[i];
          if player.None? {
            return Err(Missing(RosterSlot));
          }
          if HasMod(player.value, Superyummy) {
            return Ok((player.value, teamIds[t]));
          }
          i := i + 1;
        }
        assert teamIds[t..][1..] == teamIds[t + 1..];
        t := t + 1;
      }
      r := Err(NoSuperyummyPlayer);
    }

    method SuperyummyAnnouncement(world: World) returns (r: Result<Fed.EventData, Failure>)
      modifies this
      ensures Transition(State(), r) == AnnouncementStep(Fixed(), old(State()), world)
    {
      phase := GamePhase.BatterUp;
      var found := FindSuperyummy(world);
      if found.Err? {
        return Err(found.error);
      }
      var (player, teamId) := found.value;
      var game := NextGameEvent();
      r := Ok(Fed.SuperyummyGameStart(game, Fed.TogglePerforming(player.id, teamId, player.name, false, true)));
    }

    method BatterUp(world: World) returns (r: Result<Fed.EventData, Failure>)
      requires Valid()
      modifies this, home, away
      ensures Transition(State(), r) == BatterUpStep(Fixed(), old(State()), world)
    {
      phase := GamePhase.Pitch;
      var side := BattingTeamGameData();
      side.teamBatterCount := side.teamBatterCount + 1;
      var found := GetBatterAndTeam(Fixed(), State(), world);
      if found.Err? {
        return Err(found.error);
      }
      var (batter, team) := found.value;
      var game := NextGameEvent();
      var item := WieldingItem(batter.bat);
      if item.Err? {
        return Err(item.error);
      }
      r := Ok(Fed.BatterUp(game, batter.name, team.nickname, item.value));
    }

    method Pitch(world: World, rng: Rng.Rng) returns (r: Result<Fed.EventData, Failure>)
      modifies this, rng
      ensures Outcome(State(), rng.State(), r) == PitchStep(Fixed(), old(State()), world, old(rng.State()))
    {
      var weatherEvent := RollWeather(rng);
      if weatherEvent.Err? {
        return Err(weatherEvent.error);
      }
      if weatherEvent.value.Some? {
        return Ok(weatherEvent.value.value);
      }
      r := ActualPitch(world, rng);
    }

    method ActualPitch(world: World, rng: Rng.Rng) returns (r: Result<Fed.EventData, Failure>)
      modifies this, rng
      ensures Outcome(State(), rng.State(), r) == ActualPitchStep(Fixed(), old(State()), world, old(rng.State()))
    {
      var firstBits := rng.Next();
      var roll := Rng.DrawValue(firstBits);
      var batter := GetBatterAndTeam(Fixed(), State(), world);
      if batter.Err? {
        return Err(batter.error);
      }
      var pitcher := GetPitcherAndTeam(Fixed(), State(), world);
      if pitcher.Err? {
        return Err(pitcher.error);
      }
      var isStrike := roll < StrikeThreshold(pitcher.value.0, batter.value.0);
      var swungThreshold := SwingThreshold(isStrike, batter.value.0, pitcher.value.0);
      var secondBits := rng.Next();
      var swung := Rng.DrawValue(secondBits) < swungThreshold;
      if !swung {
        var game := NextGameEvent();
        if isStrike {
          return Ok(Fed.StrikeLooking(game, 0, 1));
        } else {
          return Ok(Fed.Ball(game, 1, 0));
        }
      }
      r := Err(Unmodelled(SwungPitch));
    }

    /** The weather check, by weather class. */
    method RollWeather(rng: Rng.Rng) returns (r: Result<Option<Fed.EventData>, Failure>)
      modifies rng
      ensures WeatherRoll(r, rng.State()) == WeatherStep(weather, old(rng.State()))
    {
      WeatherWithoutDraw(weather, rng.State());
      if Rolled(weather) {
        WeatherWithDraw(weather, rng.State());
      }
      if Inert(weather) {
        r := Ok(None);
      } else if Rolled(weather) {
        var bits := rng.Next();
        if Rng.DrawValue(bits) < WeatherThreshold {
          r := Err(Unmodelled(WeatherEvent(weather)));
        } else {
          r := Ok(None);
        }
      } else if Unhandled(weather) {
        r := Err(Unmodelled(WeatherEvent(weather)));
      } else {
        r := Err(UnknownWeather(weather));
      }
    }
  }
}
