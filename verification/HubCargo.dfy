/** Cargo: who claims it, and the timers that free, right, replace and clear it (internal/realtime/cargo.go). */
module HubCargo {
  import opened Common
  import opened TravelAccess
  import opened HubTypes

  const CLAIM_RELEASE_DELAY := 500 * MILLISECOND
  const REPLENISH_DELAY := 3 * SECOND
  const AUTO_RIGHT_DELAY := 2 * SECOND
  const CLEANUP_AGE := 10 * MINUTE
  const CLEANUP_THRESHOLD := 50
  const SPAWN_RADIUS := 3.0
  const FIRST_JOB := 4

  /** "cargo-job-n", or another configured name. */
  datatype CargoId = Job(number: nat) | Named(name: int)

  /** `claimExpires` and `updated` are in milliseconds, every other instant in nanoseconds. */
  datatype Cargo = Cargo(world: string, at: Position, owner: Option<ClientId>, claimExpires: int, autoRight: bool, updated: int)

  datatype Timer =
    | Release(id: CargoId, owner: ClientId, expires: int)
    | AutoRight(id: CargoId, since: int)
    | Replenish(id: CargoId, since: int)
    | Cleanup(id: CargoId, touched: int)

  /** An armed timer goes off at `due` or later. */
  datatype Armed = Armed(timer: Timer, due: int)

  datatype Yard = Yard(
    cargo: map<CargoId, Cargo>, spawns: map<CargoId, Position>, away: map<CargoId, int>, untouched: map<CargoId, int>,
    touched: map<CargoId, int>, replaced: set<CargoId>, nextId: nat, timers: multiset<Armed>)

  datatype Manifest = Manifest(spawns: map<CargoId, (string, Position)>)

  function InitialYard(m: Manifest, now: int): (y: Yard) {
    Yard(
      map id | id in m.spawns :: Cargo(m.spawns[id].0, m.spawns[id].1, None, 0, false, Millis(now)),
      map id | id in m.spawns :: m.spawns[id].1,
      map[], map[], map[], {}, FIRST_JOB, multiset{})
  }

  function Max(a: int, b: int): (m: int) {
    if a < b then b else a
  }

  /** The delay until an instant is never negative. */
  function Arm(timers: multiset<Armed>, timer: Timer, due: int): (t: multiset<Armed>) {
    timers + multiset{Armed(timer, due)}
  }

  // ---------- A driver goes away ----------

  function Owned(y: Yard, c: ClientId): (ids: set<CargoId>) {
    set id | id in y.cargo && y.cargo[id].owner == Some(c)
  }

  function ReleaseTimers(ids: set<CargoId>, c: ClientId, expires: int, due: int): (t: multiset<Armed>) {
    multiset(set id | id in ids :: Armed(Release(id, c, expires), due))
  }

  function AutoRightTimers(ids: set<CargoId>, since: int, due: int): (t: multiset<Armed>) {
    multiset(set id | id in ids :: Armed(AutoRight(id, since), due))
  }

  function CleanupTimers(ids: set<CargoId>, since: int, due: int): (t: multiset<Armed>) {
    multiset(set id | id in ids :: Armed(Cleanup(id, since), due))
  }

  function MarkedTimers(ids: set<CargoId>, c: ClientId, expires: int, since: int, now: int): (t: multiset<Armed>) {
    (if expires > 0 then ReleaseTimers(ids, c, expires, Max(now, expires * MILLISECOND)) else multiset{})
    + AutoRightTimers(ids, since, now + AUTO_RIGHT_DELAY)
    + CleanupTimers(ids, since, since + CLEANUP_AGE)
  }

  function MarkedCargo(cargo: map<CargoId, Cargo>, ids: set<CargoId>, expires: int, now: int): (m: map<CargoId, Cargo>) {
    map id | id in cargo :: if id in ids then cargo[id].(claimExpires := expires, updated := Millis(now)) else cargo[id]
  }

  function Stamped(times: map<CargoId, int>, ids: set<CargoId>, since: int): (m: map<CargoId, int>) {
    map id | id in times.Keys + ids :: if id in ids then since else times[id]
  }

  /** The cargo tables once the cargo in `ids` has been marked. */
  function Marked(y: Yard, ids: set<CargoId>, c: ClientId, expires: int, since: int, now: int): (r: Yard) {
    y.(
      cargo := MarkedCargo(y.cargo, ids, expires, now),
      untouched := Stamped(y.untouched, ids, since),
      touched := Stamped(y.touched, ids, since),
      timers := y.timers + MarkedTimers(ids, c, expires, since, now))
  }

  /** Everything `c` holds gets a claim that runs out, and counts as untouched from now on. */
  function MarkForRelease(y: Yard, c: ClientId, now: int): (r: Yard) {
    Marked(y, Owned(y, c), c, Millis(now + CLAIM_RELEASE_DELAY), Millis(now) * MILLISECOND, now)
  }

  // ---------- Claims and updates ----------

  datatype Handled = Handled(yard: Yard, accepted: bool)

  function Claim(presences: Presences, y: Yard, c: ClientId, id: CargoId, now: int): (r: Handled) {
    if c !in presences || id !in y.cargo || y.cargo[id].world != presences[c].world || presences[c].vehicle.None?
      || DistanceSquared(presences[c].at, y.cargo[id].at) > 36.0
    then Handled(y, false)
    else
      var state := y.cargo[id];
      var lapsed := state.claimExpires > 0 && state.claimExpires <= Millis(now);
      if state.owner.Some? && !lapsed && state.owner != Some(c) then Handled(y, false)
      else
        Handled(
          y.(
            cargo := y.cargo[id := state.(owner := Some(c), claimExpires := 0, autoRight := false, updated := Millis(now))],
            untouched := y.untouched - {id},
            touched := y.touched[id := now]),
          true)
  }

  predicate OutsideSpawn(y: Yard, id: CargoId)
    requires id in y.cargo && id in y.spawns
  {
    DistanceSquared(y.cargo[id].at, y.spawns[id]) > SPAWN_RADIUS * SPAWN_RADIUS
  }

  function Touches(touched: map<CargoId, int>, id: CargoId, touching: bool, now: int): (m: map<CargoId, int>) {
    if touching || id !in touched then touched[id := now] else touched
  }

  function Waits(untouched: map<CargoId, int>, id: CargoId, touching: bool, now: int): (m: map<CargoId, int>) {
    if touching then untouched - {id} else if id in untouched then untouched else untouched[id := now]
  }

  function WaitTimers(y: Yard, id: CargoId, touching: bool, now: int): (t: multiset<Armed>) {
    if touching || id in y.untouched then y.timers
    else
      var touched := if id in y.touched then y.touched[id] else now;
      Arm(
        Arm(y.timers, AutoRight(id, now), now + AUTO_RIGHT_DELAY),
        Cleanup(id, touched), Max(now, touched + CLEANUP_AGE))
  }

  /** Untouched cargo starts, or keeps, the wait to be righted. */
  function NoteTouch(y: Yard, id: CargoId, touching: bool, now: int): (r: Yard) {
    y.(
      touched := Touches(y.touched, id, touching, now),
      untouched := Waits(y.untouched, id, touching, now),
      timers := WaitTimers(y, id, touching, now))
  }

  /** Cargo taken away from its spawn is replaced once, after a while. */
  function NoteDistance(y: Yard, id: CargoId, now: int): (r: Yard)
    requires id in y.cargo && id in y.spawns
  {
    if id in y.replaced || !OutsideSpawn(y, id) then y.(away := y.away - {id})
    else if id in y.away then y
    else y.(away := y.away[id := now], timers := Arm(y.timers, Replenish(id, now), now + REPLENISH_DELAY))
  }

  datatype CargoMessage = CargoMessage(id: CargoId, at: Position, touching: bool, wellFormed: bool)

  function ClaimExpiry(previous: Cargo, touching: bool, now: int): (ms: int) {
    if touching then 0
    else if previous.claimExpires > 0 then previous.claimExpires
    else Millis(now + CLAIM_RELEASE_DELAY)
  }

  /** The stored state after an accepted update, before touch and distance are noted. */
  function Moved(y: Yard, c: ClientId, message: CargoMessage, now: int): (r: Yard)
    requires message.id in y.cargo
  {
    var id := message.id;
    var expires := ClaimExpiry(y.cargo[id], message.touching, now);
    y.(
      cargo := y.cargo[id := Cargo(y.cargo[id].world, message.at, Some(c), expires, false, Millis(now))],
      timers := if message.touching || expires <= 0 then y.timers
                else Arm(y.timers, Release(id, c, expires), Max(now, expires * MILLISECOND)))
  }

  function Update(presences: Presences, y: Yard, c: ClientId, message: CargoMessage, now: int): (r: Handled)
    requires y.cargo.Keys == y.spawns.Keys
  {
    var id := message.id;
    if !message.wellFormed || c !in presences || id !in y.cargo || y.cargo[id].world != presences[c].world
      || y.cargo[id].owner != Some(c)
    then Handled(y, false)
    else Handled(NoteDistance(NoteTouch(Moved(y, c, message, now), id, message.touching, now), id, now), true)
  }

  // ---------- Timers ----------

  function FireRelease(presences: Presences, y: Yard, id: CargoId, owner: ClientId, expires: int, now: int): (r: Yard) {
    if id !in y.cargo || y.cargo[id].owner != Some(owner) || y.cargo[id].claimExpires != expires then y
    else if owner in presences && presences[owner].world == y.cargo[id].world then y
    else y.(cargo := y.cargo[id := y.cargo[id].(owner := None, claimExpires := 0, updated := Millis(now))])
  }

  function FireAutoRight(y: Yard, id: CargoId, since: int, now: int): (r: Yard) {
    if id !in y.cargo || id !in y.untouched || y.untouched[id] != since || now - since < AUTO_RIGHT_DELAY then y
    else
      y.(
        untouched := y.untouched - {id},
        cargo := y.cargo[id := y.cargo[id].(owner := None, claimExpires := 0, autoRight := true, updated := Millis(now))])
  }

  function InWorld(y: Yard, world: string): (ids: set<CargoId>) {
    set id | id in y.cargo && y.cargo[id].world == world
  }

  function FireCleanup(y: Yard, id: CargoId, touched: int, now: int): (r: Yard) {
    if id !in y.cargo || id !in y.touched || y.touched[id] != touched || y.cargo[id].owner.Some? || now - touched < CLEANUP_AGE
    then y
    else if |InWorld(y, y.cargo[id].world)| <= CLEANUP_THRESHOLD then y
    else
      y.(
        cargo := y.cargo - {id}, spawns := y.spawns - {id}, away := y.away - {id}, untouched := y.untouched - {id},
        touched := y.touched - {id}, replaced := y.replaced - {id})
  }

  /** The first job number from `from` on that no cargo has; it is found because cargo is finite. */
  function FreshJob(cargo: map<CargoId, Cargo>, from: nat): (n: nat)
    ensures n >= from && Job(n) !in cargo
    ensures forall k: nat :: from <= k < n ==> Job(k) in cargo
    decreases |JobsFrom(cargo, from)|
  {
    if Job(from) !in cargo then from
    else
      NextJobsAreFewer(cargo, from);
      FreshJob(cargo, from + 1)
  }

  ghost function JobsFrom(cargo: map<CargoId, Cargo>, from: nat): (ids: set<CargoId>) {
    set id | id in cargo && id.Job? && id.number >= from
  }

  lemma NextJobsAreFewer(cargo: map<CargoId, Cargo>, from: nat)
    requires Job(from) in cargo
    ensures |JobsFrom(cargo, from + 1)| < |JobsFrom(cargo, from)|
  {
    assert JobsFrom(cargo, from + 1) == JobsFrom(cargo, from) - {Job(from)};
  }

  method NextJob(cargo: map<CargoId, Cargo>, start: nat) returns (id: CargoId, next: nat)
    ensures id == Job(FreshJob(cargo, start)) && next == FreshJob(cargo, start) + 1
  {
    next := start;
    while true
      invariant next >= start && FreshJob(cargo, next) == FreshJob(cargo, start)
      decreases |JobsFrom(cargo, next)|
    {
      id := Job(next);
      if id in cargo { NextJobsAreFewer(cargo, next); }
      next := next + 1;
      if id !in cargo { return; }
    }
  }

  function FireReplenish(y: Yard, source: CargoId, since: int, now: int): (r: Yard)
    requires y.cargo.Keys == y.spawns.Keys
  {
    if source !in y.cargo || source !in y.away || y.away[source] != since || source in y.replaced
      || now - since < REPLENISH_DELAY || !OutsideSpawn(y, source)
    then y
    else
      var number, spawn := FreshJob(y.cargo, y.nextId), y.spawns[source];
      y.(
        cargo := y.cargo[Job(number) := Cargo(y.cargo[source].world, spawn, None, 0, false, Millis(now))],
        spawns := y.spawns[Job(number) := spawn],
        touched := y.touched[Job(number) := now],
        replaced := y.replaced + {source},
        away := y.away - {source},
        nextId := number + 1,
        timers := Arm(y.timers, Cleanup(Job(number), now), now + CLEANUP_AGE))
  }

  /** One armed timer goes off. */
  function Fire(presences: Presences, y: Yard, armed: Armed, now: int): (r: Yard)
    requires y.cargo.Keys == y.spawns.Keys
  {
    var left := y.(timers := y.timers - multiset{armed});
    match armed.timer
    case Release(id, owner, expires) => FireRelease(presences, left, id, owner, expires, now)
    case AutoRight(id, since) => FireAutoRight(left, id, since, now)
    case Replenish(id, since) => FireReplenish(left, id, since, now)
    case Cleanup(id, touched) => FireCleanup(left, id, touched, now)
  }

  // ---------- What every step keeps ----------

  predicate IsArmed(timers: multiset<Armed>, timer: Timer, latest: int) {
    exists a :: a in timers && a.timer == timer && a.due >= latest
  }

  /** All that the tables hold of one cargo, apart from when it was last touched. */
  datatype Slot = Slot(state: Cargo, spawn: Position, away: Option<int>, untouched: Option<int>, replaced: bool)

  function Entry<T>(m: map<CargoId, T>, id: CargoId): (r: Option<T>) {
    if id in m then Some(m[id]) else None
  }

  function SlotOf(y: Yard, id: CargoId): (s: Slot)
    requires id in y.cargo && id in y.spawns
  {
    Slot(y.cargo[id], y.spawns[id], Entry(y.away, id), Entry(y.untouched, id), id in y.replaced)
  }

  predicate Beside(presences: Presences, state: Cargo) {
    state.owner.Some? && state.owner.value in presences && presences[state.owner.value].world == state.world
  }

  predicate Outside(slot: Slot) {
    DistanceSquared(slot.state.at, slot.spawn) > SPAWN_RADIUS * SPAWN_RADIUS
  }

  /** Owned cargo has its owner beside it, or a timer that will free it from just this owner and claim. */
  ghost predicate Releasable(presences: Presences, timers: multiset<Armed>, id: CargoId, state: Cargo) {
    || state.owner.None?
    || Beside(presences, state)
    || IsArmed(timers, Release(id, state.owner.value, state.claimExpires), state.claimExpires * MILLISECOND)
  }

  /** Cargo that waits to be righted or replaced has its timer armed. */
  ghost predicate Tracked(timers: multiset<Armed>, id: CargoId, slot: Slot) {
    && (slot.untouched.Some? ==> IsArmed(timers, AutoRight(id, slot.untouched.value), slot.untouched.value + AUTO_RIGHT_DELAY))
    && (slot.away.Some? ==>
          && !slot.replaced && Outside(slot)
          && IsArmed(timers, Replenish(id, slot.away.value), slot.away.value + REPLENISH_DELAY))
  }

  ghost predicate Kept(presences: Presences, timers: multiset<Armed>, id: CargoId, slot: Slot) {
    Releasable(presences, timers, id, slot.state) && Tracked(timers, id, slot)
  }

  /** Side tables mention only cargo that exists. */
  ghost predicate SideTablesMatch(y: Yard) {
    && y.spawns.Keys == y.cargo.Keys
    && y.away.Keys <= y.cargo.Keys && y.untouched.Keys <= y.cargo.Keys && y.touched.Keys <= y.cargo.Keys
    && y.replaced <= y.cargo.Keys
  }

  /** Of the cargo not yet replaced, at most one comes from each configured spawn. */
  ghost predicate OneUnreplacedEach(y: Yard)
    requires y.spawns.Keys == y.cargo.Keys
  {
    forall a, b :: a in y.cargo && b in y.cargo && a !in y.replaced && b !in y.replaced && a != b ==>
      y.cargo[a].world != y.cargo[b].world || y.spawns[a] != y.spawns[b]
  }

  /** No timer goes off before what it waits for is due. */
  ghost predicate Punctual(timers: multiset<Armed>) {
    forall a :: a in timers ==>
      && (a.timer.AutoRight? ==> a.due >= a.timer.since + AUTO_RIGHT_DELAY)
      && (a.timer.Replenish? ==> a.due >= a.timer.since + REPLENISH_DELAY)
  }

  ghost predicate WellKept(presences: Presences, y: Yard) {
    && SideTablesMatch(y) && OneUnreplacedEach(y) && Punctual(y.timers)
    && (forall id :: id in y.cargo ==> Kept(presences, y.timers, id, SlotOf(y, id)))
  }

  /** The configured spawns are at different places. */
  ghost predicate DistinctSpawns(m: Manifest) {
    forall a, b :: a in m.spawns && b in m.spawns && a != b ==> m.spawns[a] != m.spawns[b]
  }

  /** The configured jobs are numbered below the first number given out. */
  ghost predicate EarlyJobs(m: Manifest) {
    forall id :: id in m.spawns && id.Job? ==> id.number < FIRST_JOB
  }

  predicate GivenOut(y: Yard, id: CargoId) {
    id.Job? ==> id.number < y.nextId
  }

  /** Job numbers are given out in order. */
  ghost predicate Numbered(y: Yard) {
    forall id :: id in y.cargo ==> GivenOut(y, id)
  }
}
