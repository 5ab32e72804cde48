/** The few types of the external `fed` event library that the simulator
    reads or produces, cut down to the fields the simulator fills in. */
module Fed {
  import opened Wrappers

  /** Identifiers (`Uuid` in the source) are opaque; any countable type will do. */
  type Uuid = nat

  /** The ambient weather of a game. The named variants are those the weather
      dispatch lists by name; `Unlisted` stands for every other weather. */
  datatype Weather =
    | Sun2 | Snowy | SolarEclipse | Glitter | Blooddrain | Peanuts | Birds
    | Feedback | Reverb | BlackHole | Coffee | Coffee2 | Coffee3s | Flooding
    | Salmon | PolarityPlus | PolarityMinus | Sun90 | SunPoint1 | SumSun
    | SupernovaEclipse | BlackHoleBlackHole | Jazz | Night
    | Unlisted(name: string)

  /** The header every game event carries. */
  datatype GameEvent = GameEvent(gameId: Uuid, homeTeam: Uuid, awayTeam: Uuid, play: int)

  datatype TogglePerforming = TogglePerforming(
    playerId: Uuid,
    teamId: Uuid,
    playerName: string,
    isOverperforming: bool,
    isFirstProc: bool)

  /** The payload of a recorded or simulated event. `NonGame` stands for every
      event that carries no per-game header. */
  datatype EventData =
    | LetsGo(game: GameEvent, weather: Weather, stadiumId: Option<Uuid>)
    | PlayBall(game: GameEvent)
    | HalfInningStart(game: GameEvent, topOfInning: bool, inning: int, battingTeamName: string)
    | SuperyummyGameStart(game: GameEvent, toggle: TogglePerforming)
    | BatterUp(game: GameEvent, batterName: string, teamNickname: string, wieldingItem: Option<string>)
    | StrikeLooking(game: GameEvent, balls: int, strikes: int)
    | Ball(game: GameEvent, balls: int, strikes: int)
    | NonGame
  {
    /** The per-game header, when the event has one (`FedEventData::game`). */
    function Game(): Option<GameEvent> {
      if NonGame? then None else Some(game)
    }
  }
}
