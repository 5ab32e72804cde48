/** The parts of the roster snapshot schema that the simulator's logic reads:
    team and player records, the modifier-membership predicate and the choice
    of display name. Everything else in the snapshot is data-format plumbing. */
module ChroniclerSchema {
  import opened Wrappers
  import opened Fed

  datatype TeamScatteredInfo = TeamScatteredInfo(fullName: string, location: string, nickname: string)

  datatype TeamState = TeamState(scattered: Option<TeamScatteredInfo>)

  /** A team. `rotationSlot` is an `i32` in the source. */
  datatype Team = Team(
    id: Uuid,
    state: Option<TeamState>,
    lineup: seq<Uuid>,
    rotation: seq<Uuid>,
    fullName: string,
    nickname: string,
    rotationSlot: int)

  datatype PlayerState = PlayerState(unscatteredName: Option<string>)

  /** A player, with the five optional modifier lists and the six performance
      attributes the pitch formulas read (`f64` in the source, `real` here). */
  datatype Player = Player(
    id: Uuid,
    name: string,
    bat: Option<string>,
    state: Option<PlayerState>,
    gameAttr: Option<seq<string>>,
    weekAttr: Option<seq<string>>,
    seasAttr: Option<seq<string>>,
    itemAttr: Option<seq<string>>,
    permAttr: Option<seq<string>>,
    divinity: real,
    musclitude: real,
    patheticism: real,
    thwackability: real,
    ruthlessness: real,
    moxie: real)

  /** `attrs.iter().any(|attr| attr == modName)`: a left-to-right scan. */
  function AnyEquals(attrs: seq<string>, modName: string): (r: bool)
    ensures r <==> modName in attrs
  {
    |attrs| > 0 && (attrs[0] == modName || AnyEquals(attrs[1..], modName))
  }

  /** An absent list has no modifiers; a present one has those it lists. */
  function ListHasMod(list: Option<seq<string>>, modName: string): (r: bool)
    ensures list.None? ==> !r
    ensures list.Some? ==> (r <==> exists i :: 0 <= i < |list.value| && list.value[i] == modName)
  {
    list.Some? && AnyEquals(list.value, modName)
  }

  /** Every attribute the player carries, in the order the lists are checked. */
  function AllAttrs(p: Player): seq<string> {
    Flatten(p.permAttr) + Flatten(p.seasAttr) + Flatten(p.weekAttr) + Flatten(p.gameAttr) + Flatten(p.itemAttr)
  }

  function Flatten(list: Option<seq<string>>): seq<string> {
    if list.Some? then list.value else []
  }

  /** A player has a modifier iff it appears in any of the five lists. */
  function HasMod(p: Player, modName: string): (r: bool)
    ensures r <==> modName in AllAttrs(p)
  {
    ListHasMod(p.permAttr, modName) ||
    ListHasMod(p.seasAttr, modName) ||
    ListHasMod(p.weekAttr, modName) ||
    ListHasMod(p.gameAttr, modName) ||
    ListHasMod(p.itemAttr, modName)
  }

  /** The five modifier lists of a player. */
  datatype AttrList = Perm | Seas | Week | GameScope | Item

  function Append(list: Option<seq<string>>, attr: string): Option<seq<string>> {
    if list.Some? then Some(list.value + [attr]) else Some([attr])
  }

  /** The player with `attr` added to one of its modifier lists. */
  function AddAttr(p: Player, which: AttrList, attr: string): Player {
    match which
    case Perm => p.(permAttr := Append(p.permAttr, attr))
    case Seas => p.(seasAttr := Append(p.seasAttr, attr))
    case Week => p.(weekAttr := Append(p.weekAttr, attr))
    case GameScope => p.(gameAttr := Append(p.gameAttr, attr))
    case Item => p.(itemAttr := Append(p.itemAttr, attr))
  }

  /** Appending to one list keeps every modifier it had and adds the new one. */
  lemma AppendHasMod(list: Option<seq<string>>, attr: string, modName: string)
    ensures ListHasMod(list, modName) ==> ListHasMod(Append(list, attr), modName)
    ensures ListHasMod(Append(list, attr), attr)
  {
    var l := Append(list, attr);
    assert l.value[|l.value| - 1] == attr;
  }

  /** Adding an attribute to any list never removes a modifier, and the player
      then has the modifier added. */
  lemma {:induction false} AddAttrMonotone(p: Player, which: AttrList, attr: string, modName: string)
    ensures HasMod(p, modName) ==> HasMod(AddAttr(p, which, attr), modName)
    ensures HasMod(AddAttr(p, which, attr), attr)
  {
    match which
    case Perm => AppendHasMod(p.permAttr, attr, modName);
    case Seas => AppendHasMod(p.seasAttr, attr, modName);
    case Week => AppendHasMod(p.weekAttr, attr, modName);
    case GameScope => AppendHasMod(p.gameAttr, attr, modName);
    case Item => AppendHasMod(p.itemAttr, attr, modName);
  }

  /** The name a team is displayed under: its scattered full name when the team
      state records one, its plain full name otherwise. */
  function TeamDisplayName(t: Team): (name: string)
    ensures t.state.Some? && t.state.value.scattered.Some? ==> name == t.state.value.scattered.value.fullName
    ensures t.state.None? || t.state.value.scattered.None? ==> name == t.fullName
  {
    match t.state
    case Some(TeamState(Some(info))) => info.fullName
    case _ => t.fullName
  }

  /** The name a player is displayed under: its unscattered name when the
      player state records one, its plain name otherwise. */
  function PlayerDisplayName(p: Player): (name: string)
    ensures p.state.Some? && p.state.value.unscatteredName.Some? ==> name == p.state.value.unscatteredName.value
    ensures p.state.None? || p.state.value.unscatteredName.None? ==> name == p.name
  {
    if p.state.Some? && p.state.value.unscatteredName.Some? then p.state.value.unscatteredName.value else p.name
  }
}
