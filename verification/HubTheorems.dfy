/** What holds in every reachable state of the hub, whatever messages, timers and disconnections interleave. */
module HubTheorems {
  import opened Common
  import opened TravelAccess
  import opened HubTypes
  import opened HubMembers
  import opened HubState
  import Forklifts = HubForklifts
  import Freight = HubCargo
  import MembersTheorems = HubMembersTheorems
  import ForkliftsTheorems = HubForkliftsTheorems
  import CargoTheorems = HubCargoTheorems

  lemma DisconnectKeeps(config: Config, h: Hub, c: ClientId, now: int)
    requires config.Valid() && Consistent(config, h) && now > 0
    ensures Consistent(config, Disconnect(h, c, now))
  {
    MembersTheorems.UnregisterKeeps(config, h.members, c);
    if c in h.members.presences {
      ForkliftsTheorems.AbandonKeeps(config, h.members.presences, h.yard, c, now);
      CargoTheorems.MarkKeeps(h.members.presences, h.members.presences - {c}, h.cargo, c, now);
    } else {
      assert h.members.presences - {c} == h.members.presences;
    }
  }

  lemma LeaveBehindKeeps(config: Config, h: Hub, c: ClientId, members: Members, now: int)
    requires config.Valid() && Consistent(config, h) && now > 0
    requires Coupled(config, members) && members.presences == h.members.presences - {c}
    ensures Consistent(config, LeaveBehind(config, h, c, members, now))
  {
    if c in h.members.presences {
      ForkliftsTheorems.LeaveWithKeeps(config, h.members.presences, h.yard, c);
      CargoTheorems.MarkKeeps(h.members.presences, members.presences, h.cargo, c, now);
    } else {
      assert members.presences == h.members.presences;
    }
  }

  lemma LeaveWorldKeeps(config: Config, h: Hub, c: ClientId, now: int)
    requires config.Valid() && Consistent(config, h) && now > 0 && c !in h.members.committing
    ensures Consistent(config, LeaveWorld(config, h, c, now))
  {
    MembersTheorems.LeaveKeeps(config, h.members, c);
    if c !in h.members.presences { assert h.members.presences - {c} == h.members.presences; }
    LeaveBehindKeeps(config, h, c, Leave(h.members, c, false).members, now);
  }

  lemma FinishCommitKeeps(config: Config, h: Hub, c: ClientId, now: int)
    requires config.Valid() && Consistent(config, h) && now > 0 && c in h.members.committing
    ensures Consistent(config, FinishCommit(config, h, c, now))
  {
    MembersTheorems.EndCommitKeeps(config, h.members, c);
    if c !in h.members.presences { assert h.members.presences - {c} == h.members.presences; }
    LeaveBehindKeeps(config, h, c, EndCommit(h.members, c).members, now);
  }

  lemma PresenceKeepsCargo(presences: Presences, y: Freight.Yard, c: ClientId, p: Presence, now: int)
    requires Freight.WellKept(presences, y) && now > 0
    ensures Freight.WellKept(
      presences[c := p], if ChangesRoom(presences, c, p.world) then Freight.MarkForRelease(y, c, now) else y)
  {
    if ChangesRoom(presences, c, p.world) {
      CargoTheorems.MarkKeeps(presences, presences[c := p], y, c, now);
    } else {
      CargoTheorems.MovingInOneWorldKeeps(presences, presences[c := p], y, c);
    }
  }

  lemma PresenceKeeps(config: Config, h: Hub, c: ClientId, message: PresenceMessage, now: int)
    requires config.Valid() && Consistent(config, h) && now > 0 && c !in h.members.committing
    ensures Consistent(config, HandlePresence(config, h, c, message, now).hub)
  {
    if Heard(config, h.members, c, message) {
      var asked, presence := AllowDestination(config, h.members, c, message.world), StoredPresence(h, c, message);
      MembersTheorems.AllowKeeps(config, h.members, c, message.world);
      MembersTheorems.AllowChangesLittle(config, h.members, c, message.world);
      if asked.accepted {
        MembersTheorems.AllowSettles(config, h.members, c, message.world);
        MembersTheorems.PlaceKeeps(config, asked.members, c, presence);
        ForkliftsTheorems.DriveKeeps(config, h.members.presences, h.yard, c, presence, message.vehicle, now);
        PresenceKeepsCargo(h.members.presences, h.cargo, c, presence, now);
      }
    }
  }

  lemma DoorStepKeeps(config: Config, h: Hub, op: Op)
    requires config.Valid() && Consistent(config, h) && Enabled(h, op) && (op.Connect? || op.AskDoor? || op.Begin?)
    ensures Consistent(config, Step(config, h, op))
  {
    match op
    case Connect(id, client) => MembersTheorems.RegisterKeeps(config, h.members, id, client);
    case AskDoor(c, q, gameTime, authorization, now) =>
      MembersTheorems.RequestKeeps(config, h.members, c, q, gameTime, now, authorization);
    case Begin(c, requestId, authorization, now) =>
      MembersTheorems.BeginCommitKeeps(config, h.members, c, requestId, authorization, now);
  }

  lemma VehicleStepKeeps(config: Config, h: Hub, op: Op)
    requires config.Valid() && Consistent(config, h) && Enabled(h, op)
    requires op.MoveForklift? || op.SpawnForklift? || op.ForkliftTimer? || op.ClaimCargo? || op.MoveCargo? || op.CargoTimer?
    ensures Consistent(config, Step(config, h, op))
  {
    match op
    case MoveForklift(c, forklift, now) =>
      ForkliftsTheorems.UpdateKeeps(config, h.members.presences, h.yard, c, forklift, now);
    case SpawnForklift(c, digits, now) =>
      ForkliftsTheorems.SpawnKeeps(config, h.members.presences, h.yard, c, digits, now);
    case ForkliftTimer(timer) => ForkliftsTheorems.FireKeeps(config, h.members.presences, h.yard, timer);
    case ClaimCargo(c, id, now) => CargoTheorems.ClaimKeeps(h.members.presences, h.cargo, c, id, now);
    case MoveCargo(c, load, now) => CargoTheorems.UpdateKeeps(h.members.presences, h.cargo, c, load, now);
    case CargoTimer(armed, now) => CargoTheorems.FireKeeps(h.members.presences, h.cargo, armed, now);
  }

  lemma StepKeeps(config: Config, h: Hub, op: Op)
    requires config.Valid() && Consistent(config, h) && Enabled(h, op)
    ensures Consistent(config, Step(config, h, op))
  {
    match op
    case Drop(c, now) => DisconnectKeeps(config, h, c, now);
    case Report(c, message, now) => PresenceKeeps(config, h, c, message, now);
    case GoAway(c, now) => LeaveWorldKeeps(config, h, c, now);
    case End(c, now) => FinishCommitKeeps(config, h, c, now);
    case Connect(_, _) => DoorStepKeeps(config, h, op);
    case AskDoor(_, _, _, _, _) => DoorStepKeeps(config, h, op);
    case Begin(_, _, _, _) => DoorStepKeeps(config, h, op);
    case MoveForklift(_, _, _) => VehicleStepKeeps(config, h, op);
    case SpawnForklift(_, _, _) => VehicleStepKeeps(config, h, op);
    case ForkliftTimer(_) => VehicleStepKeeps(config, h, op);
    case ClaimCargo(_, _, _) => VehicleStepKeeps(config, h, op);
    case MoveCargo(_, _, _) => VehicleStepKeeps(config, h, op);
    case CargoTimer(_, _) => VehicleStepKeeps(config, h, op);
  }

  lemma NewHubIsConsistent(config: Config, manifest: Freight.Manifest, now: int)
    requires config.Valid() && Freight.DistinctSpawns(manifest)
    ensures Consistent(config, NewHub(config, manifest, now))
  {
    CargoTheorems.NewYardIsWellKept(map[], manifest, now);
    var yard := Forklifts.InitialYard(config);
    forall world: string ensures |Forklifts.DynamicIn(yard.forklifts, world)| <= Forklifts.SpawnLimit(world) {
      assert Forklifts.DynamicIn(yard.forklifts, world) == {};
    }
    assert Current(NOBODY) == {};
  }

  // ---------- Runs ----------

  /** The hub after a run of things that could happen; what could not is passed over. */
  ghost function AfterOps(config: Config, start: Hub, ops: seq<Op>): (h: Hub)
    requires config.Valid() && Consistent(config, start)
    ensures Consistent(config, h)
    decreases |ops|
  {
    if ops == [] then start
    else
      var before := AfterOps(config, start, ops[..|ops| - 1]);
      var op := ops[|ops| - 1];
      if Enabled(before, op) then
        StepKeeps(config, before, op);
        Step(config, before, op)
      else before
  }

  /** What consistency means for connections and doors. */
  ghost predicate RoomsAndDoors(config: Config, m: Members) {
    && (forall w, c :: w in m.rooms && c in m.rooms[w] <==> c in m.presences && m.presences[c].world == w)
    && |Current(m)| <= config.maxClients
    && (forall c :: c in m.grants ==> c in m.presences && m.presences[c].world == m.grants[c].rule.source)
    && (forall c :: c in m.arrivals && c !in m.committing ==> c !in m.presences && c !in m.grants)
  }

  /** And for vehicles and cargo. */
  ghost predicate DriversAndCargo(h: Hub) {
    && (forall v :: v in h.yard.owners ==> VehicleOf(h.members.presences, h.yard.owners[v]) == Some(v))
    && (forall world: string :: |Forklifts.DynamicIn(h.yard.forklifts, world)| <= Forklifts.SpawnLimit(world))
    && (forall id :: id in h.cargo.cargo ==> Freight.Releasable(h.members.presences, h.cargo.timers, id, h.cargo.cargo[id]))
  }

  lemma CoupledMeans(config: Config, m: Members)
    requires Coupled(config, m)
    ensures RoomsAndDoors(config, m)
  {
  }

  lemma ConsistentMeans(config: Config, h: Hub)
    requires Consistent(config, h)
    ensures DriversAndCargo(h)
  {
  }

  /** In every run of a new hub, whatever interleaves. */
  lemma InEveryRun(config: Config, manifest: Freight.Manifest, now: int, ops: seq<Op>)
    requires config.Valid() && Freight.DistinctSpawns(manifest)
    ensures Consistent(config, NewHub(config, manifest, now))
    ensures
      var h := AfterOps(config, NewHub(config, manifest, now), ops);
      RoomsAndDoors(config, h.members) && DriversAndCargo(h)
  {
    NewHubIsConsistent(config, manifest, now);
    var h := AfterOps(config, NewHub(config, manifest, now), ops);
    CoupledMeans(config, h.members);
    ConsistentMeans(config, h);
  }

  // ---------- Lineage over a run ----------

  /** The step puts a replacement for `id` at its spawn. */
  ghost predicate Replaces(before: Hub, after: Hub, id: Freight.CargoId) {
    id !in before.cargo.replaced && id in after.cargo.replaced
  }

  /** Cargo that has been replaced, or is gone together with its name. */
  predicate Spent(y: Freight.Yard, id: Freight.CargoId) {
    id in y.replaced || (id !in y.cargo && Freight.GivenOut(y, id))
  }

  /** Job numbers go on in order, and what is spent stays so and is not replaced again. */
  ghost predicate Spends(y: Freight.Yard, z: Freight.Yard, id: Freight.CargoId) {
    && Freight.Numbered(z) && y.nextId <= z.nextId
    && (Spent(y, id) ==> Spent(z, id) && (id in z.replaced ==> id in y.replaced))
  }

  /** Neither names nor lines of descent change. */
  ghost predicate SameNames(y: Freight.Yard, z: Freight.Yard) {
    z.cargo.Keys == y.cargo.Keys && z.replaced == y.replaced && z.nextId == y.nextId
  }

  lemma SameNamesSpend(y: Freight.Yard, z: Freight.Yard, id: Freight.CargoId)
    requires Freight.Numbered(y) && SameNames(y, z)
    ensures Spends(y, z, id)
  {
  }

  lemma ReleasingKeepsNames(presences: Presences, y: Freight.Yard, id: Freight.CargoId, owner: ClientId, expires: int, now: int)
    ensures SameNames(y, Freight.FireRelease(presences, y, id, owner, expires, now))
  {
  }

  lemma RightingKeepsNames(y: Freight.Yard, id: Freight.CargoId, since: int, now: int)
    ensures SameNames(y, Freight.FireAutoRight(y, id, since, now))
  {
  }

  lemma CleanupSpends(y: Freight.Yard, cleaned: Freight.CargoId, touched: int, now: int, id: Freight.CargoId)
    requires Freight.SideTablesMatch(y) && Freight.Numbered(y)
    ensures Spends(y, Freight.FireCleanup(y, cleaned, touched, now), id)
  {
  }

  lemma ReplenishSpends(y: Freight.Yard, source: Freight.CargoId, since: int, now: int, id: Freight.CargoId)
    requires Freight.SideTablesMatch(y) && Freight.Numbered(y)
    ensures Spends(y, Freight.FireReplenish(y, source, since, now), id)
  {
  }

  lemma TimerSpends(presences: Presences, y: Freight.Yard, armed: Freight.Armed, now: int, id: Freight.CargoId)
    requires Freight.SideTablesMatch(y) && Freight.Numbered(y)
    ensures Spends(y, Freight.Fire(presences, y, armed, now), id)
  {
    var left := y.(timers := y.timers - multiset{armed});
    match armed.timer
    case Release(cargo, owner, expires) =>
      ReleasingKeepsNames(presences, left, cargo, owner, expires, now);
      SameNamesSpend(y, Freight.Fire(presences, y, armed, now), id);
    case AutoRight(cargo, since) =>
      RightingKeepsNames(left, cargo, since, now);
      SameNamesSpend(y, Freight.Fire(presences, y, armed, now), id);
    case Replenish(source, since) => ReplenishSpends(left, source, since, now, id);
    case Cleanup(cleaned, touched) => CleanupSpends(left, cleaned, touched, now, id);
  }

  lemma MovingKeepsNames(y: Freight.Yard, c: ClientId, load: Freight.CargoMessage, now: int)
    requires load.id in y.cargo
    ensures SameNames(y, Freight.Moved(y, c, load, now))
  {
  }

  lemma NotingKeepsNames(y: Freight.Yard, id: Freight.CargoId, touching: bool, now: int)
    requires id in y.cargo && id in y.spawns
    ensures SameNames(y, Freight.NoteDistance(Freight.NoteTouch(y, id, touching, now), id, now))
  {
  }

  lemma UpdateSpends(presences: Presences, y: Freight.Yard, c: ClientId, load: Freight.CargoMessage, now: int, id: Freight.CargoId)
    requires Freight.SideTablesMatch(y) && Freight.Numbered(y)
    ensures Spends(y, Freight.Update(presences, y, c, load, now).yard, id)
  {
    if load.id in y.cargo {
      MovingKeepsNames(y, c, load, now);
      NotingKeepsNames(Freight.Moved(y, c, load, now), load.id, load.touching, now);
    }
    SameNamesSpend(y, Freight.Update(presences, y, c, load, now).yard, id);
  }

  /** A step that is about connections or forklifts leaves names and lines of descent alone. */
  lemma OtherStepsKeepNames(config: Config, h: Hub, op: Op)
    requires Freight.SideTablesMatch(h.cargo) && !op.CargoTimer? && !op.MoveCargo?
    ensures SameNames(h.cargo, Step(config, h, op).cargo)
  {
  }

  lemma StepSpends(config: Config, h: Hub, op: Op, id: Freight.CargoId)
    requires Freight.SideTablesMatch(h.cargo) && Freight.Numbered(h.cargo)
    ensures Spends(h.cargo, Step(config, h, op).cargo, id)
  {
    if op.CargoTimer? {
      TimerSpends(h.members.presences, h.cargo, op.armed, op.now, id);
    } else if op.MoveCargo? {
      UpdateSpends(h.members.presences, h.cargo, op.c, op.load, op.now, id);
    } else {
      OtherStepsKeepNames(config, h, op);
      SameNamesSpend(h.cargo, Step(config, h, op).cargo, id);
    }
  }

  /** How often a run replaces a cargo. */
  ghost function Replacements(config: Config, start: Hub, ops: seq<Op>, id: Freight.CargoId): (n: nat)
    requires config.Valid() && Consistent(config, start)
  {
    if ops == [] then 0
    else
      Replacements(config, start, ops[..|ops| - 1], id)
      + if Replaces(AfterOps(config, start, ops[..|ops| - 1]), AfterOps(config, start, ops), id) then 1 else 0
  }

  lemma {:induction false} ReplacementsSpend(config: Config, start: Hub, ops: seq<Op>, id: Freight.CargoId)
    requires config.Valid() && Consistent(config, start) && Freight.Numbered(start.cargo)
    ensures
      var end := AfterOps(config, start, ops);
      && Freight.Numbered(end.cargo)
      && Replacements(config, start, ops, id) + (if Spent(start.cargo, id) then 1 else 0) <= (if Spent(end.cargo, id) then 1 else 0)
  {
    if ops != [] {
      var front, op := ops[..|ops| - 1], ops[|ops| - 1];
      ReplacementsSpend(config, start, front, id);
      var before := AfterOps(config, start, front);
      if Enabled(before, op) {
        StepSpends(config, before, op, id);
      }
    }
  }

  /** In every run of a new hub each cargo is replaced at most once: the name of cargo cleared away never comes back. */
  lemma ReplacedAtMostOnce(config: Config, manifest: Freight.Manifest, now: int, ops: seq<Op>, id: Freight.CargoId)
    requires config.Valid() && Freight.DistinctSpawns(manifest) && Freight.EarlyJobs(manifest)
    ensures Consistent(config, NewHub(config, manifest, now))
    ensures
      var start := NewHub(config, manifest, now);
      && Replacements(config, start, ops, id) <= 1
      && (Spent(AfterOps(config, start, ops).cargo, id) ==>
            forall more :: Replacements(config, AfterOps(config, start, ops), more, id) == 0)
  {
    NewHubIsConsistent(config, manifest, now);
    var start := NewHub(config, manifest, now);
    ReplacementsSpend(config, start, ops, id);
    var end := AfterOps(config, start, ops);
    if Spent(end.cargo, id) {
      forall more ensures Replacements(config, end, more, id) == 0 {
        ReplacementsSpend(config, end, more, id);
      }
    }
  }
}
