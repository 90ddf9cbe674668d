/** The whole hub as a state, and everything that can happen to it (internal/realtime). */
module HubState {
  import opened Common
  import opened TravelAccess
  import opened HubTypes
  import opened HubMembers
  import Forklifts = HubForklifts
  import Freight = HubCargo

  datatype Hub = Hub(members: Members, yard: Forklifts.Yard, cargo: Freight.Yard)

  function NewHub(config: Config, manifest: Freight.Manifest, now: int): (h: Hub) {
    Hub(NOBODY, Forklifts.InitialYard(config), Freight.InitialYard(manifest, now))
  }

  function VehicleOf(presences: Presences, c: ClientId): (v: Option<ForkliftId>) {
    if c in presences then presences[c].vehicle else None
  }

  function Disconnect(h: Hub, c: ClientId, now: int): (r: Hub) {
    if c !in h.members.clients then h
    else
      Hub(
        Unregister(h.members, c),
        Forklifts.Abandon(h.yard, c, VehicleOf(h.members.presences, c), now),
        if c in h.members.presences then Freight.MarkForRelease(h.cargo, c, now) else h.cargo)
  }

  function StoredPresence(h: Hub, c: ClientId, message: PresenceMessage): (p: Presence) {
    Presence(
      message.world, message.at, Forklifts.Claimable(h.yard, c, message.world, message.vehicle), message.sequence,
      message.animation, message.animationRevision)
  }

  predicate ChangesRoom(presences: Presences, c: ClientId, world: string) {
    c in presences && presences[c].world != world
  }

  datatype Outcome = Outcome(hub: Hub, accepted: bool)

  function HandlePresence(config: Config, h: Hub, c: ClientId, message: PresenceMessage, now: int): (r: Outcome) {
    if !Heard(config, h.members, c, message) then Outcome(h, false)
    else
      var asked := AllowDestination(config, h.members, c, message.world);
      if !asked.accepted then Outcome(h.(members := asked.members), false)
      else
        Outcome(Admit(h.(members := asked.members), c, StoredPresence(h, c, message), now), true)
  }

  /** Whom the doors let through gets on or off forklifts, gives up the cargo of another room, and is seen. */
  function Admit(h: Hub, c: ClientId, presence: Presence, now: int): (r: Hub) {
    Hub(
      Place(h.members, c, presence),
      Forklifts.Drive(h.yard, c, VehicleOf(h.members.presences, c), presence.vehicle, now),
      if ChangesRoom(h.members.presences, c, presence.world) then Freight.MarkForRelease(h.cargo, c, now) else h.cargo)
  }

  /** What leaving a world does to forklifts and cargo. */
  function LeaveBehind(config: Config, h: Hub, c: ClientId, members: Members, now: int): (r: Hub) {
    Hub(
      members,
      Forklifts.LeaveWith(config, h.yard, c, VehicleOf(h.members.presences, c)),
      if c in h.members.presences then Freight.MarkForRelease(h.cargo, c, now) else h.cargo)
  }

  function LeaveWorld(config: Config, h: Hub, c: ClientId, now: int): (r: Hub) {
    LeaveBehind(config, h, c, Leave(h.members, c, false).members, now)
  }

  function FinishCommit(config: Config, h: Hub, c: ClientId, now: int): (r: Hub) {
    LeaveBehind(config, h, c, EndCommit(h.members, c).members, now)
  }

  // ---------- Histories ----------

  datatype Op =
    | Connect(id: ClientId, client: Client)
    | Drop(c: ClientId, now: int)
    | Report(c: ClientId, message: PresenceMessage, now: int)
    | GoAway(c: ClientId, now: int)
    | AskDoor(c: ClientId, request: TransitionRequest, gameTime: int, authorization: string, now: int)
    | Begin(c: ClientId, requestId: string, authorization: string, now: int)
    | End(c: ClientId, now: int)
    | MoveForklift(c: ClientId, forklift: Forklifts.ForkliftMessage, now: int)
    | SpawnForklift(c: ClientId, digits: int, now: int)
    | ForkliftTimer(timer: Forklifts.Timer)
    | ClaimCargo(c: ClientId, cargo: Freight.CargoId, now: int)
    | MoveCargo(c: ClientId, load: Freight.CargoMessage, now: int)
    | CargoTimer(armed: Freight.Armed, now: int)

  /**
   * What can happen next: random names are fresh, a connection's messages are handled one at a time,
   * while disconnecting and armed timers may come at any moment.
   */
  predicate Enabled(h: Hub, op: Op) {
    match op
    case Connect(id, _) => id !in h.members.issued
    case Drop(_, now) => now > 0
    case Report(c, _, now) => now > 0 && c !in h.members.committing
    case GoAway(c, now) => now > 0 && c !in h.members.committing
    case AskDoor(c, _, _, _, now) => now > 0 && c !in h.members.committing && c in h.members.clients
    case Begin(c, _, _, now) => now > 0 && c !in h.members.committing && c in h.members.clients
    case End(c, now) => now > 0 && c in h.members.committing
    case MoveForklift(c, _, now) => now > 0 && c !in h.members.committing
    case SpawnForklift(c, digits, now) =>
      && now > 0 && c !in h.members.committing
      && Forklifts.OwnerOf(h.yard, Dynamic(digits)) == None && Dynamic(digits) !in h.yard.forklifts
    case ForkliftTimer(timer) => timer in h.yard.timers
    case ClaimCargo(c, _, now) => now > 0 && c !in h.members.committing
    case MoveCargo(c, _, now) => now > 0 && c !in h.members.committing
    case CargoTimer(armed, now) => armed in h.cargo.timers && now >= armed.due
  }

  /** Cargo and its spawns are stored together (see WellKept). */
  function Step(config: Config, h: Hub, op: Op): (r: Hub)
    requires h.cargo.cargo.Keys == h.cargo.spawns.Keys
  {
    match op
    case Connect(id, client) => h.(members := Register(h.members, config.maxClients, id, client).members)
    case Drop(c, now) => Disconnect(h, c, now)
    case Report(c, message, now) => HandlePresence(config, h, c, message, now).hub
    case GoAway(c, now) => LeaveWorld(config, h, c, now)
    case AskDoor(c, request, gameTime, authorization, now) =>
      if c !in h.members.clients then h
      else h.(members := RequestTransition(config, h.members, c, request, gameTime, now, authorization).members)
    case Begin(c, requestId, authorization, now) =>
      if c !in h.members.clients then h
      else h.(members := BeginCommit(h.members, c, requestId, authorization, now).members)
    case End(c, now) => FinishCommit(config, h, c, now)
    case MoveForklift(c, forklift, now) =>
      h.(yard := Forklifts.Update(config, h.members.presences, h.yard, c, forklift, now).yard)
    case SpawnForklift(c, digits, now) => h.(yard := Forklifts.Spawn(h.members.presences, h.yard, c, digits, now).yard)
    case ForkliftTimer(timer) => h.(yard := Forklifts.Fire(config, h.yard, timer))
    case ClaimCargo(c, id, now) => h.(cargo := Freight.Claim(h.members.presences, h.cargo, c, id, now).yard)
    case MoveCargo(c, load, now) => h.(cargo := Freight.Update(h.members.presences, h.cargo, c, load, now).yard)
    case CargoTimer(armed, now) => h.(cargo := Freight.Fire(h.members.presences, h.cargo, armed, now))
  }

  ghost predicate Consistent(config: Config, h: Hub) {
    && Coupled(config, h.members)
    && Forklifts.Orderly(config, h.members.presences, h.yard)
    && Freight.WellKept(h.members.presences, h.cargo)
  }
}
