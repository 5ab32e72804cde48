/** The replay checker: it keeps one simulated game per game identifier and
    one random stream shared by all of them, and checks each recorded event
    against what the simulated game produces on its next tick.

    The checker is generic in the game it drives: `newGame` is the game a new
    identifier starts from and `tick` advances a game by one event, drawing
    from the shared stream. */
module Sim {
  import Fed
  import Rng

  /** The result of checking one recorded event: it matched, or the
      equality assertion fails (the source panics). */
  datatype Verdict = Validated | AssertEqPanic(recorded: Fed.EventData, simulated: Fed.EventData)

  /** The checker's state after one or more checks, and the last verdict. */
  datatype Checked<G> = Checked(games: map<Fed.Uuid, G>, rng: Rng.RngState, verdict: Verdict)

  /** One check. An event without a per-game header is accepted and changes
      nothing. Otherwise the game for its identifier (a fresh one when the
      identifier is new) ticks once on the shared stream, its new state is
      stored, and the verdict compares the recorded event with the tick's. */
  function Check<G>(games: map<Fed.Uuid, G>, rng: Rng.RngState, newGame: G,
                    tick: (G, Rng.RngState) -> (G, Rng.RngState, Fed.EventData),
                    data: Fed.EventData): (r: Checked<G>)
    ensures data.Game().None? ==> r == Checked(games, rng, Validated)
    ensures data.Game().Some? ==>
      var id := data.Game().value.gameId;
      var ticked := tick(if id in games then games[id] else newGame, rng);
      && r.games.Keys == games.Keys + {id}
      && r.games[id] == ticked.0
      && r.rng == ticked.1
      && (r.verdict == Validated <==> ticked.2 == data)
    ensures forall id :: id in games && (data.Game().None? || id != data.Game().value.gameId) ==>
      id in r.games && r.games[id] == games[id]
  {
    match data.Game()
    case None => Checked(games, rng, Validated)
    case Some(header) =>
      var game := if header.gameId in games then games[header.gameId] else newGame;
      var (next, rng', simulated) := tick(game, rng);
      Checked(games[header.gameId := next], rng', if data == simulated then Validated else AssertEqPanic(data, simulated))
  }

  /** Checking a stream of recorded events in order, stopping at the first
      failed assertion. */
  function Replay<G>(games: map<Fed.Uuid, G>, rng: Rng.RngState, newGame: G,
                     tick: (G, Rng.RngState) -> (G, Rng.RngState, Fed.EventData),
                     events: seq<Fed.EventData>): Checked<G>
    decreases |events|
  {
    if events == [] then Checked(games, rng, Validated)
    else
      var c := Check(games, rng, newGame, tick, events[0]);
      if c.verdict.AssertEqPanic? then c
      else Replay(c.games, c.rng, newGame, tick, events[1..])
  }

  /** The game identifiers the events carry. */
  function GameIds(events: seq<Fed.EventData>): set<Fed.Uuid> {
    set i | 0 <= i < |events| && events[i].Game().Some? :: events[i].Game().value.gameId
  }

  /** A replay never forgets a game, and starts games only for identifiers
      the events carry. */
  lemma {:induction false} ReplayKeys<G>(games: map<Fed.Uuid, G>, rng: Rng.RngState, newGame: G,
                                         tick: (G, Rng.RngState) -> (G, Rng.RngState, Fed.EventData),
                                         events: seq<Fed.EventData>)
    ensures var r := Replay(games, rng, newGame, tick, events);
      games.Keys <= r.games.Keys <= games.Keys + GameIds(events)
    decreases |events|
  {
    if events != [] {
      var c := Check(games, rng, newGame, tick, events[0]);
      if c.verdict.Validated? {
        ReplayKeys(c.games, c.rng, newGame, tick, events[1..]);
        forall id | id in GameIds(events[1..])
          ensures id in GameIds(events)
        {
          var i :| 0 <= i < |events[1..]| && events[1..][i].Game().Some? && events[1..][i].Game().value.gameId == id;
          assert events[i + 1] == events[1..][i];
        }
        if events[0].Game().Some? {
          assert events[0].Game().value.gameId in GameIds(events);
        }
      } else if events[0].Game().Some? {
        assert events[0].Game().value.gameId in GameIds(events);
      }
    }
  }

  /** A game whose identifier no event carries is left exactly as it was. */
  lemma {:induction false} ReplayLeavesOtherGames<G>(games: map<Fed.Uuid, G>, rng: Rng.RngState, newGame: G,
                                                     tick: (G, Rng.RngState) -> (G, Rng.RngState, Fed.EventData),
                                                     events: seq<Fed.EventData>, id: Fed.Uuid)
    requires id in games && id !in GameIds(events)
    ensures var r := Replay(games, rng, newGame, tick, events);
      id in r.games && r.games[id] == games[id]
    decreases |events|
  {
    if events != [] {
      var c := Check(games, rng, newGame, tick, events[0]);
      if events[0].Game().Some? {
        assert events[0].Game().value.gameId in GameIds(events);
      }
      if c.verdict.Validated? {
        forall j | j in GameIds(events[1..])
          ensures j in GameIds(events)
        {
          var i :| 0 <= i < |events[1..]| && events[1..][i].Game().Some? && events[1..][i].Game().value.gameId == j;
          assert events[i + 1] == events[1..][i];
        }
        ReplayLeavesOtherGames(c.games, c.rng, newGame, tick, events[1..], id);
      }
    }
  }

  /** Events without a per-game header draw nothing, start nothing and are
      always accepted. */
  lemma {:induction false} HeaderlessEventsAreInert<G>(games: map<Fed.Uuid, G>, rng: Rng.RngState, newGame: G,
                                                       tick: (G, Rng.RngState) -> (G, Rng.RngState, Fed.EventData),
                                                       events: seq<Fed.EventData>)
    requires forall i :: 0 <= i < |events| ==> events[i].Game().None?
    ensures Replay(games, rng, newGame, tick, events) == Checked(games, rng, Validated)
    decreases |events|
  {
    if events != [] {
      assert events[0].Game().None?;
      HeaderlessEventsAreInert(games, rng, newGame, tick, events[1..]);
    }
  }

  class Sim<G> {
    var games: map<Fed.Uuid, G>
    var rng: Rng.RngState
    const newGame: G
    const tick: (G, Rng.RngState) -> (G, Rng.RngState, Fed.EventData)

    /** No games yet, and a stream seeded with the two words and an empty cache. */
    constructor (s0: bv64, s1: bv64, newGame: G, tick: (G, Rng.RngState) -> (G, Rng.RngState, Fed.EventData))
      ensures games == map[] && rng == Rng.RngState(s0, s1, [])
      ensures this.newGame == newGame && this.tick == tick
    {
      games := map[];
      rng := Rng.RngState(s0, s1, []);
      this.newGame := newGame;
      this.tick := tick;
    }

    method CheckNextEvent(data: Fed.EventData) returns (verdict: Verdict)
      modifies this
      ensures Checked(games, rng, verdict) == Check(old(games), old(rng), newGame, tick, data)
    {
      var header := data.Game();
      if header.None? {
        return Validated;
      }
      var id := header.value.gameId;
      if id !in games {
        games := games[id := newGame];
      }
      var (next, rng', simulated) := tick(games[id], rng);
      games := games[id := next];
      rng := rng';
      if data == simulated {
        verdict := Validated;
      } else {
        verdict := AssertEqPanic(data, simulated);
      }
    }
  }
}
