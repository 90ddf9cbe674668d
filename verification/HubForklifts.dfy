/** Who drives which forklift, and when an abandoned one goes away (internal/realtime/forklift.go, internal/realtime/hub.go). */
module HubForklifts {
  import opened Common
  import opened TravelAccess
  import opened HubTypes

  const ABANDONED_FORKLIFT_LIFETIME := 5 * MINUTE

  /** `expires` is in milliseconds; zero is never. */
  datatype Forklift = Forklift(id: ForkliftId, world: string, owner: Option<ClientId>, expires: int)

  const ZERO_FORKLIFT := Forklift(Unnamed, "", None, 0)

  datatype Timer = Expiry(id: ForkliftId, expires: int) | Respawn(id: ForkliftId)

  datatype Yard = Yard(forklifts: map<ForkliftId, Forklift>, owners: map<ForkliftId, ClientId>, timers: multiset<Timer>)

  function InitialForklift(config: Config, id: ForkliftId): (f: Forklift)
    requires id in config.home
  {
    Forklift(id, config.home[id], None, 0)
  }

  function InitialYard(config: Config): (y: Yard) {
    Yard(map id | id in config.home :: InitialForklift(config, id), map[], multiset{})
  }

  function StateOf(y: Yard, id: ForkliftId): (f: Forklift) {
    if id in y.forklifts then y.forklifts[id] else ZERO_FORKLIFT
  }

  function OwnerOf(y: Yard, id: ForkliftId): (c: Option<ClientId>) {
    if id in y.owners then Some(y.owners[id]) else None
  }

  /** Only in the two race worlds does a released forklift expire. */
  function ReleaseExpiry(world: string, now: int): (ms: int) {
    if world != "ma00race" && world != "ma00" then 0 else Millis(now + ABANDONED_FORKLIFT_LIFETIME)
  }

  function Scheduled(timers: multiset<Timer>, id: ForkliftId, expires: int): (t: multiset<Timer>) {
    if expires > 0 then timers + multiset{Expiry(id, expires)} else timers
  }

  function Disown(y: Yard, c: ClientId, vehicle: Option<ForkliftId>): (r: Yard) {
    if vehicle.Some? && OwnerOf(y, vehicle.value) == Some(c) then y.(owners := y.owners - {vehicle.value}) else y
  }

  // ---------- Presence ----------

  /** The vehicle a presence gets: one that is in its world and that nobody else owns. */
  function Claimable(y: Yard, c: ClientId, world: string, vehicle: Option<ForkliftId>): (v: Option<ForkliftId>) {
    if vehicle.None? || vehicle.value !in y.forklifts || y.forklifts[vehicle.value].world != world then None
    else if OwnerOf(y, vehicle.value).Some? && OwnerOf(y, vehicle.value) != Some(c) then None
    else vehicle
  }

  /** Getting off writes the released state under the name it carries, which is empty for one that is gone. */
  function GetOff(y: Yard, c: ClientId, vehicle: ForkliftId, now: int): (r: Yard) {
    var state := StateOf(y, vehicle);
    var released := state.(owner := None, expires := ReleaseExpiry(state.world, now));
    Disown(
      y.(forklifts := y.forklifts[released.id := released], timers := Scheduled(y.timers, released.id, released.expires)),
      c, Some(vehicle))
  }

  function GetOn(y: Yard, c: ClientId, vehicle: ForkliftId): (r: Yard) {
    var driven := StateOf(y, vehicle).(id := vehicle, owner := Some(c), expires := 0);
    y.(owners := y.owners[vehicle := c], forklifts := y.forklifts[vehicle := driven])
  }

  function Drive(y: Yard, c: ClientId, previous: Option<ForkliftId>, vehicle: Option<ForkliftId>, now: int): (r: Yard) {
    var free := if previous.Some? && previous != vehicle then GetOff(y, c, previous.value, now) else y;
    if vehicle.Some? then GetOn(free, c, vehicle.value) else free
  }

  // ---------- Leaving ----------

  /** A driver who leaves the world takes a spawned forklift along and sends a configured one home. */
  function LeaveWith(config: Config, y: Yard, c: ClientId, vehicle: Option<ForkliftId>): (r: Yard) {
    if vehicle.None? then y
    else
      var id := vehicle.value;
      var forklifts :=
        if id in config.home then y.forklifts[id := InitialForklift(config, id)] else y.forklifts - {id};
      Disown(y.(forklifts := forklifts), c, vehicle)
  }

  /** A driver who disconnects leaves the forklift where it is, to expire. */
  function Abandon(y: Yard, c: ClientId, vehicle: Option<ForkliftId>, now: int): (r: Yard) {
    if vehicle.None? then y
    else
      var abandoned := StateOf(y, vehicle.value).(owner := None, expires := Millis(now + ABANDONED_FORKLIFT_LIFETIME));
      Disown(
        y.(forklifts := y.forklifts[abandoned.id := abandoned], timers := y.timers + multiset{Expiry(abandoned.id, abandoned.expires)}),
        c, vehicle)
  }

  // ---------- Updates and spawns ----------

  datatype ForkliftMessage = ForkliftMessage(id: ForkliftId, release: bool, wellFormed: bool)

  datatype Handled = Handled(yard: Yard, accepted: bool)

  function Update(config: Config, presences: Presences, y: Yard, c: ClientId, message: ForkliftMessage, now: int): (r: Handled) {
    var id := message.id;
    if !config.ValidForklift(id) || !message.wellFormed || c !in presences || id !in y.forklifts
      || y.forklifts[id].world != presences[c].world
    then Handled(y, false)
    else
      var owner, world := OwnerOf(y, id), presences[c].world;
      if (if message.release then owner != Some(c) else owner.Some? && owner != Some(c)) then Handled(y, false)
      else if message.release then
        var expires := ReleaseExpiry(world, now);
        Handled(
          Yard(y.forklifts[id := Forklift(id, world, None, expires)], y.owners - {id}, Scheduled(y.timers, id, expires)),
          true)
      else
        Handled(y.(forklifts := y.forklifts[id := Forklift(id, world, owner, 0)]), true)
  }

  function SpawnLimit(world: string): (n: nat) {
    if world == "mfsy" then 20 else if world == "ma00race" then 20 else 1
  }

  function DynamicIn(forklifts: map<ForkliftId, Forklift>, world: string): (ids: set<ForkliftId>) {
    set id | id in forklifts && id.Dynamic? && forklifts[id].world == world
  }

  /** `digits` is a fresh random name. */
  function Spawn(presences: Presences, y: Yard, c: ClientId, digits: int, now: int): (r: Handled) {
    if c !in presences || |DynamicIn(y.forklifts, presences[c].world)| >= SpawnLimit(presences[c].world) then Handled(y, false)
    else
      var id, expires := Dynamic(digits), Millis(now + ABANDONED_FORKLIFT_LIFETIME);
      Handled(
        y.(
          forklifts := y.forklifts[id := Forklift(id, presences[c].world, None, expires)],
          timers := y.timers + multiset{Expiry(id, expires)}),
        true)
  }

  /** An armed timer goes off: an abandoned forklift that has not changed since is removed. */
  function Fire(config: Config, y: Yard, timer: Timer): (r: Yard) {
    var left := y.(timers := y.timers - multiset{timer});
    match timer
    case Expiry(id, expires) =>
      if id !in y.forklifts || y.forklifts[id].owner.Some? || y.forklifts[id].expires != expires then left
      else
        var removed := left.(forklifts := y.forklifts - {id});
        if id in config.home then removed.(timers := removed.timers + multiset{Respawn(id)}) else removed
    case Respawn(id) =>
      if id !in config.home || id in y.forklifts then left
      else left.(forklifts := y.forklifts[id := InitialForklift(config, id)])
  }

  // ---------- What every step keeps ----------

  /** A registered owner drives its forklift, in the forklift's world while it exists. */
  ghost predicate OwnersDrive(config: Config, presences: Presences, y: Yard) {
    forall v :: v in y.owners ==>
      && y.owners[v] in presences
      && presences[y.owners[v]].vehicle == Some(v)
      && (v in y.forklifts ==> presences[y.owners[v]].world == y.forklifts[v].world)
      && (v in config.home ==> presences[y.owners[v]].world == config.home[v])
  }

  /** A state names its registered owner, and one that will expire has its timer armed. */
  ghost predicate InOrder(config: Config, y: Yard, v: ForkliftId)
    requires v in y.forklifts
  {
    var state := y.forklifts[v];
    && state.id == v
    && (state.owner.Some? ==> OwnerOf(y, v) == state.owner && state.expires == 0)
    && (state.expires > 0 ==> Expiry(v, state.expires) in y.timers)
    && (v in config.home ==> state.world == config.home[v])
    && (v == Unnamed ==> state.world == "")
  }

  ghost predicate StatesNameOwners(config: Config, y: Yard) {
    forall v :: v in y.forklifts ==> InOrder(config, y, v)
  }

  ghost predicate WithinSpawnLimits(y: Yard) {
    forall world: string :: |DynamicIn(y.forklifts, world)| <= SpawnLimit(world)
  }

  ghost predicate Orderly(config: Config, presences: Presences, y: Yard) {
    && OwnersDrive(config, presences, y) && StatesNameOwners(config, y) && WithinSpawnLimits(y)
    && (forall c :: c in presences && presences[c].vehicle.Some? ==> config.ValidForklift(presences[c].vehicle.value))
  }
}
