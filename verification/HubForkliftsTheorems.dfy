/** Forklift exclusivity: every step keeps drivers, states, timers and spawn limits in order. */
module HubForkliftsTheorems {
  import opened Common
  import opened TravelAccess
  import opened HubTypes
  import opened HubForklifts
  import HubMembersTheorems

  // ---------- Spawn limits ----------

  /** Forklifts that stay where they are, or go, never exceed a limit that held before. */
  lemma FewerKeepLimits(y: Yard, z: Yard)
    requires WithinSpawnLimits(y)
    requires forall v :: v in z.forklifts && v.Dynamic? ==> v in y.forklifts && z.forklifts[v].world == y.forklifts[v].world
    ensures WithinSpawnLimits(z)
  {
    forall world: string ensures |DynamicIn(z.forklifts, world)| <= SpawnLimit(world) {
      HubMembersTheorems.SubsetIsSmaller(DynamicIn(z.forklifts, world), DynamicIn(y.forklifts, world));
    }
  }

  lemma OneMoreKeepsLimits(y: Yard, z: Yard, spawned: Forklift)
    requires WithinSpawnLimits(y) && spawned.id.Dynamic? && spawned.id !in y.forklifts
    requires |DynamicIn(y.forklifts, spawned.world)| < SpawnLimit(spawned.world)
    requires z.forklifts == y.forklifts[spawned.id := spawned]
    ensures WithinSpawnLimits(z)
  {
    forall world: string ensures |DynamicIn(z.forklifts, world)| <= SpawnLimit(world) {
      if world == spawned.world {
        assert DynamicIn(z.forklifts, world) <= DynamicIn(y.forklifts, world) + {spawned.id};
        HubMembersTheorems.SubsetIsSmaller(DynamicIn(z.forklifts, world), DynamicIn(y.forklifts, world) + {spawned.id});
      } else {
        assert DynamicIn(z.forklifts, world) <= DynamicIn(y.forklifts, world);
        HubMembersTheorems.SubsetIsSmaller(DynamicIn(z.forklifts, world), DynamicIn(y.forklifts, world));
      }
    }
  }

  // ---------- Getting on and off ----------

  /** Nobody is left driving without a registered presence once the leaver's own forklift is disowned. */
  lemma DisowningKeeps(config: Config, presences: Presences, y: Yard, z: Yard, c: ClientId, vehicle: Option<ForkliftId>)
    requires OwnersDrive(config, presences, y) && (c in presences ==> presences[c].vehicle == vehicle)
    requires z.owners == Disown(y, c, vehicle).owners
    requires forall v :: v in z.forklifts ==>
      if v in y.forklifts && v in y.owners then z.forklifts[v].world == y.forklifts[v].world
      else v !in y.owners || (v in config.home && z.forklifts[v].world == config.home[v])
    ensures OwnersDrive(config, presences - {c}, z)
  {
  }

  lemma NobodyDrivesTheUnnamed(config: Config, presences: Presences, y: Yard)
    requires config.Valid() && Orderly(config, presences, y)
    ensures Unnamed !in y.owners
    ensures forall c :: c in presences ==> presences[c].vehicle != Some(Unnamed)
  {
    forall v | v in y.owners ensures v != Unnamed {
      var c := y.owners[v];
      assert c in presences && presences[c].vehicle == Some(v);
      assert config.ValidForklift(v);
    }
  }

  lemma GetOffKeepsStates(config: Config, y: Yard, c: ClientId, vehicle: ForkliftId, now: int)
    requires StatesNameOwners(config, y) && vehicle != Unnamed && config.Valid()
    ensures StatesNameOwners(config, GetOff(y, c, vehicle, now))
  {
    var z := GetOff(y, c, vehicle, now);
    var name := StateOf(y, vehicle).id;
    assert vehicle in y.forklifts ==> InOrder(config, y, vehicle) && name == vehicle;
    forall v | v in z.forklifts ensures InOrder(config, z, v) {
      if v != name { assert InOrder(config, y, v); }
    }
  }

  lemma GetOffLeavesForkliftsInPlace(config: Config, y: Yard, c: ClientId, vehicle: ForkliftId, now: int, v: ForkliftId)
    requires StatesNameOwners(config, y) && v in GetOff(y, c, vehicle, now).forklifts
    ensures
      if v in y.forklifts then GetOff(y, c, vehicle, now).forklifts[v].world == y.forklifts[v].world || v == Unnamed
      else v == Unnamed
  {
    assert vehicle in y.forklifts ==> InOrder(config, y, vehicle);
  }

  lemma GetOffKeeps(config: Config, presences: Presences, y: Yard, c: ClientId, now: int)
    requires config.Valid() && Orderly(config, presences, y) && c in presences && presences[c].vehicle.Some?
    ensures Orderly(config, presences - {c}, GetOff(y, c, presences[c].vehicle.value, now))
  {
    var vehicle := presences[c].vehicle.value;
    var z := GetOff(y, c, vehicle, now);
    NobodyDrivesTheUnnamed(config, presences, y);
    GetOffKeepsStates(config, y, c, vehicle, now);
    forall v | v in z.forklifts
      ensures v == Unnamed || (v in y.forklifts && z.forklifts[v].world == y.forklifts[v].world)
    {
      GetOffLeavesForkliftsInPlace(config, y, c, vehicle, now, v);
    }
    DisowningKeeps(config, presences, y, z, c, Some(vehicle));
    FewerKeepLimits(y, z);
  }

  lemma GetOnKeeps(config: Config, presences: Presences, y: Yard, c: ClientId, p: Presence, vehicle: ForkliftId)
    requires Orderly(config, presences, y) && c !in presences
    requires p.vehicle == Some(vehicle) && config.ValidForklift(vehicle)
    requires vehicle in y.forklifts && y.forklifts[vehicle].world == p.world && vehicle !in y.owners
    ensures Orderly(config, presences[c := p], GetOn(y, c, vehicle))
  {
    FewerKeepLimits(y, GetOn(y, c, vehicle));
  }

  lemma StayingOnKeeps(config: Config, presences: Presences, y: Yard, c: ClientId, p: Presence, vehicle: ForkliftId)
    requires Orderly(config, presences, y) && c in presences && presences[c].vehicle == p.vehicle == Some(vehicle)
    requires vehicle in y.forklifts && y.forklifts[vehicle].world == p.world
    requires OwnerOf(y, vehicle) in {None, Some(c)}
    ensures Orderly(config, presences[c := p], GetOn(y, c, vehicle))
  {
    FewerKeepLimits(y, GetOn(y, c, vehicle));
  }

  lemma WalkingKeeps(config: Config, presences: Presences, y: Yard, c: ClientId, p: Presence)
    requires Orderly(config, presences, y) && p.vehicle == None && (c in presences ==> presences[c].vehicle == None)
    ensures Orderly(config, presences[c := p], y)
  {
  }

  /** A presence keeps the yard in order whatever vehicle it asked for. */
  lemma DriveKeeps(config: Config, presences: Presences, y: Yard, c: ClientId, p: Presence, asked: Option<ForkliftId>, now: int)
    requires config.Valid() && Orderly(config, presences, y)
    requires p.world != "" && p.vehicle == Claimable(y, c, p.world, asked)
    requires asked.Some? ==> config.ValidForklift(asked.value)
    ensures
      var previous := if c in presences then presences[c].vehicle else None;
      Orderly(config, presences[c := p], Drive(y, c, previous, p.vehicle, now))
  {
    var previous := if c in presences then presences[c].vehicle else None;
    if previous.Some? && previous != p.vehicle {
      GetOffKeeps(config, presences, y, c, now);
      var free, away := GetOff(y, c, previous.value, now), presences - {c};
      assert away[c := p] == presences[c := p];
      if p.vehicle.Some? {
        GetOnKeeps(config, away, free, c, p, p.vehicle.value);
      } else {
        WalkingKeeps(config, away, free, c, p);
      }
    } else if previous.Some? {
      StayingOnKeeps(config, presences, y, c, p, p.vehicle.value);
    } else if p.vehicle.Some? {
      var away := presences - {c};
      assert away[c := p] == presences[c := p];
      assert p.vehicle.value !in y.owners;
      GetOnKeeps(config, away, y, c, p, p.vehicle.value);
    } else {
      WalkingKeeps(config, presences, y, c, p);
    }
  }

  // ---------- Leaving ----------

  lemma LeaveWithKeepsStates(config: Config, y: Yard, c: ClientId, vehicle: Option<ForkliftId>)
    requires StatesNameOwners(config, y) && config.Valid() && vehicle != Some(Unnamed)
    ensures StatesNameOwners(config, LeaveWith(config, y, c, vehicle))
  {
    var z := LeaveWith(config, y, c, vehicle);
    forall v | v in z.forklifts ensures InOrder(config, z, v) {
      assert v in y.forklifts ==> InOrder(config, y, v);
    }
  }

  lemma LeaveWithKeeps(config: Config, presences: Presences, y: Yard, c: ClientId)
    requires config.Valid() && Orderly(config, presences, y) && c in presences
    ensures Orderly(config, presences - {c}, LeaveWith(config, y, c, presences[c].vehicle))
  {
    var z := LeaveWith(config, y, c, presences[c].vehicle);
    NobodyDrivesTheUnnamed(config, presences, y);
    LeaveWithKeepsStates(config, y, c, presences[c].vehicle);
    DisowningKeeps(config, presences, y, z, c, presences[c].vehicle);
    FewerKeepLimits(y, z);
  }

  lemma AbandonKeepsStates(config: Config, y: Yard, c: ClientId, vehicle: ForkliftId, now: int)
    requires StatesNameOwners(config, y) && vehicle != Unnamed && config.Valid()
    ensures StatesNameOwners(config, Abandon(y, c, Some(vehicle), now))
  {
    var z := Abandon(y, c, Some(vehicle), now);
    var name := StateOf(y, vehicle).id;
    assert vehicle in y.forklifts ==> InOrder(config, y, vehicle) && name == vehicle;
    forall v | v in z.forklifts ensures InOrder(config, z, v) {
      if v != name { assert InOrder(config, y, v); }
    }
  }

  lemma AbandonKeeps(config: Config, presences: Presences, y: Yard, c: ClientId, now: int)
    requires config.Valid() && Orderly(config, presences, y) && c in presences
    ensures Orderly(config, presences - {c}, Abandon(y, c, presences[c].vehicle, now))
  {
    if presences[c].vehicle.Some? {
      var vehicle := presences[c].vehicle.value;
      var z := Abandon(y, c, Some(vehicle), now);
      NobodyDrivesTheUnnamed(config, presences, y);
      AbandonKeepsStates(config, y, c, vehicle, now);
      assert vehicle in y.forklifts ==> InOrder(config, y, vehicle);
      forall v | v in z.forklifts
        ensures v == Unnamed || (v in y.forklifts && z.forklifts[v].world == y.forklifts[v].world)
      {
      }
      DisowningKeeps(config, presences, y, z, c, Some(vehicle));
      FewerKeepLimits(y, z);
    }
  }

  // ---------- Updates, spawns and timers ----------

  lemma UpdateKeeps(config: Config, presences: Presences, y: Yard, c: ClientId, message: ForkliftMessage, now: int)
    requires Orderly(config, presences, y)
    ensures Orderly(config, presences, Update(config, presences, y, c, message, now).yard)
  {
    FewerKeepLimits(y, Update(config, presences, y, c, message, now).yard);
  }

  lemma SpawnKeeps(config: Config, presences: Presences, y: Yard, c: ClientId, digits: int, now: int)
    requires config.Valid() && Orderly(config, presences, y)
    requires Dynamic(digits) !in y.forklifts && Dynamic(digits) !in y.owners
    ensures Orderly(config, presences, Spawn(presences, y, c, digits, now).yard)
  {
    var z := Spawn(presences, y, c, digits, now).yard;
    if z != y {
      OneMoreKeepsLimits(y, z, z.forklifts[Dynamic(digits)]);
      assert forall v :: v in y.forklifts ==> InOrder(config, y, v);
    }
  }

  lemma ExpiringKeepsStates(config: Config, y: Yard, id: ForkliftId, expires: int)
    requires config.Valid() && StatesNameOwners(config, y) && Expiry(id, expires) in y.timers
    ensures StatesNameOwners(config, Fire(config, y, Expiry(id, expires)))
  {
    var z := Fire(config, y, Expiry(id, expires));
    forall v | v in z.forklifts ensures InOrder(config, z, v) {
      assert InOrder(config, y, v);
    }
  }

  lemma RespawningKeepsStates(config: Config, y: Yard, id: ForkliftId)
    requires config.Valid() && StatesNameOwners(config, y) && Respawn(id) in y.timers
    ensures StatesNameOwners(config, Fire(config, y, Respawn(id)))
  {
    var z := Fire(config, y, Respawn(id));
    forall v | v in z.forklifts ensures InOrder(config, z, v) {
      if v in y.forklifts { assert InOrder(config, y, v); }
    }
  }

  lemma FireKeepsStates(config: Config, y: Yard, timer: Timer)
    requires config.Valid() && StatesNameOwners(config, y) && timer in y.timers
    ensures StatesNameOwners(config, Fire(config, y, timer))
  {
    match timer
    case Expiry(id, expires) => ExpiringKeepsStates(config, y, id, expires);
    case Respawn(id) => RespawningKeepsStates(config, y, id);
  }

  lemma FireKeepsDrivers(config: Config, presences: Presences, y: Yard, timer: Timer)
    requires config.Valid() && OwnersDrive(config, presences, y)
    ensures OwnersDrive(config, presences, Fire(config, y, timer))
  {
  }

  lemma FireKeeps(config: Config, presences: Presences, y: Yard, timer: Timer)
    requires config.Valid() && Orderly(config, presences, y) && timer in y.timers
    ensures Orderly(config, presences, Fire(config, y, timer))
  {
    FireKeepsStates(config, y, timer);
    FireKeepsDrivers(config, presences, y, timer);
    FewerKeepLimits(y, Fire(config, y, timer));
  }

  // ---------- What follows ----------

  /** A client owns at most one forklift. */
  lemma OneForkliftEach(config: Config, presences: Presences, y: Yard, v: ForkliftId, w: ForkliftId)
    requires Orderly(config, presences, y) && v in y.owners && w in y.owners && y.owners[v] == y.owners[w]
    ensures v == w
  {
    assert presences[y.owners[v]].vehicle == Some(v);
    assert presences[y.owners[w]].vehicle == Some(w);
  }

  lemma GettingOffClearsOne(config: Config, y: Yard, c: ClientId, previous: ForkliftId, now: int, v: ForkliftId)
    requires StatesNameOwners(config, y) && previous != Unnamed && v != Unnamed
    requires v in y.forklifts && y.forklifts[v].owner.Some? && y.forklifts[v].owner != Some(c)
    ensures
      var z := GetOff(y, c, previous, now);
      && OwnerOf(z, v) == OwnerOf(y, v) && v in z.forklifts
      && z.forklifts[v].owner == (if previous == v then None else y.forklifts[v].owner)
  {
    assert InOrder(config, y, v);
    assert previous in y.forklifts ==> InOrder(config, y, previous);
  }

  lemma AnothersIsNotClaimable(config: Config, y: Yard, c: ClientId, world: string, asked: Option<ForkliftId>, v: ForkliftId)
    requires StatesNameOwners(config, y) && v in y.forklifts && y.forklifts[v].owner.Some? && y.forklifts[v].owner != Some(c)
    ensures Claimable(y, c, world, asked) != Some(v)
  {
    assert InOrder(config, y, v);
  }

  /**
   * The state of a driven forklift stops naming its driver precisely when somebody else's presence,
   * left over from before a release, still names the forklift and then lets go of it.
   */
  lemma AnotherPresenceClearsTheOwnerIffItNamedTheForklift(
    config: Config, presences: Presences, y: Yard, c: ClientId, world: string, asked: Option<ForkliftId>, now: int, v: ForkliftId)
    requires config.Valid() && Orderly(config, presences, y)
    requires v in y.forklifts && y.forklifts[v].owner.Some? && y.forklifts[v].owner != Some(c)
    ensures
      var previous := if c in presences then presences[c].vehicle else None;
      var z := Drive(y, c, previous, Claimable(y, c, world, asked), now);
      && OwnerOf(z, v) == OwnerOf(y, v)
      && v in z.forklifts
      && z.forklifts[v].owner == (if previous == Some(v) then None else y.forklifts[v].owner)
  {
    assert InOrder(config, y, v);
    NobodyDrivesTheUnnamed(config, presences, y);
    AnothersIsNotClaimable(config, y, c, world, asked, v);
    if c in presences && presences[c].vehicle.Some? {
      GettingOffClearsOne(config, y, c, presences[c].vehicle.value, now, v);
    }
  }
}
