/** The roster snapshot a game reads: teams and players by identifier, and the
    two team-level queries the game asks of it. The snapshot's own type is not
    part of the source; this is the smallest view that answers those queries. */
module Roster {
  import opened Wrappers
  import opened Fed
  import opened ChroniclerSchema

  datatype World = World(teams: map<Uuid, Team>, players: map<Uuid, Player>)

  function GetTeam(world: World, id: Uuid): Option<Team> {
    if id in world.teams then Some(world.teams[id]) else None
  }

  function GetPlayer(world: World, id: Uuid): Option<Player> {
    if id in world.players then Some(world.players[id]) else None
  }

  /** A team's roster slots, lineup first and rotation after, each resolved to
      a player when the snapshot has one; `None` for an unknown team. */
  function PlayersOnTeam(world: World, teamId: Uuid): Option<seq<Option<Player>>> {
    if teamId in world.teams then
      var ids := world.teams[teamId].lineup + world.teams[teamId].rotation;
      Some(seq(|ids|, i requires 0 <= i < |ids| => GetPlayer(world, ids[i])))
    else None
  }

  /** Whether some resolved slot of the team holds a player with the modifier;
      `None` for an unknown team. */
  function AnyPlayerOnTeamHasMod(world: World, teamId: Uuid, modName: string): Option<bool> {
    match PlayersOnTeam(world, teamId)
    case None => None
    case Some(slots) => Some(exists i :: 0 <= i < |slots| && slots[i].Some? && HasMod(slots[i].value, modName))
  }

  /** The team is known and every one of its slots resolves to a player. */
  ghost predicate FullyResolved(world: World, teamId: Uuid) {
    PlayersOnTeam(world, teamId).Some? &&
    forall i :: 0 <= i < |PlayersOnTeam(world, teamId).value| ==> PlayersOnTeam(world, teamId).value[i].Some?
  }
}
