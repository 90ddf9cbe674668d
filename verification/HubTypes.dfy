/** What the realtime hub works with: its configuration, messages and stored presences (internal/realtime, internal/travelaccess). */
module HubTypes {
  import opened Common
  import opened TravelAccess

  /** Connections have random hexadecimal names, of which only the identity matters. */
  type ClientId = int

  /**
   * The name of a configured forklift, of a spawned one ("forklift-" and twelve hexadecimal digits,
   * which no configured name has), or the empty name of a state that was never stored.
   */
  datatype ForkliftId = Base(name: int) | Dynamic(digits: int) | Unnamed

  datatype Config = Config(access: Access, worlds: set<string>, maxClients: int, home: map<ForkliftId, string>) {
    /** `home` places the configured forklifts; rules are catalogued by their transition. */
    ghost predicate Valid() {
      && maxClients > 0
      && "" !in worlds
      && (forall id :: id in home ==> id.Base?)
      && (forall t :: t in access.rules ==> access.rules[t].transition == t)
    }

    predicate ValidForklift(id: ForkliftId) {
      id in home || id.Dynamic?
    }
  }

  datatype Presence = Presence(
    world: string, at: Position, vehicle: Option<ForkliftId>, sequence: int,
    animation: Option<string>, animationRevision: int)

  /** `wellFormed` stands for the checks on numbers, avatar, movement and vehicle pose. */
  datatype PresenceMessage = PresenceMessage(
    world: string, at: Position, vehicle: Option<ForkliftId>, sequence: int,
    animation: Option<string>, animationRevision: int, wellFormed: bool)

  type Presences = map<ClientId, Presence>
}
