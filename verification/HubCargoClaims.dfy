/** Who may take, move and lose cargo (internal/realtime/cargo.go). */
module HubCargoClaims {
  import opened Common
  import opened TravelAccess
  import opened HubTypes
  import opened HubCargo
  import opened HubState
  import opened HubTheorems

  /** A claim has run out when it was given an end, and that has come. */
  predicate Lapsed(state: Cargo, now: int) {
    0 < state.claimExpires <= Millis(now)
  }

  /** A driver on a forklift, in the cargo's world and within six units of it. */
  predicate AtHand(presences: Presences, y: Yard, c: ClientId, id: CargoId) {
    && c in presences && presences[c].vehicle.Some? && id in y.cargo
    && y.cargo[id].world == presences[c].world
    && DistanceSquared(presences[c].at, y.cargo[id].at) <= 6.0 * 6.0
  }

  /** Nobody else holds the cargo, or no longer. */
  predicate Free(state: Cargo, c: ClientId, now: int) {
    state.owner == None || state.owner == Some(c) || Lapsed(state, now)
  }

  /** A driver at hand gets cargo that is free, its own or no longer claimed, and no other cargo. */
  lemma ClaimedIffFree(presences: Presences, y: Yard, c: ClientId, id: CargoId, now: int)
    ensures Claim(presences, y, c, id, now).accepted <==> AtHand(presences, y, c, id) && Free(y.cargo[id], c, now)
    ensures Claim(presences, y, c, id, now).accepted ==>
      var z := Claim(presences, y, c, id, now).yard;
      && z.cargo.Keys == y.cargo.Keys && z.cargo[id].owner == Some(c) && z.cargo[id].claimExpires == 0
      && z.cargo[id].at == y.cargo[id].at && z.cargo[id].world == y.cargo[id].world
      && (forall other :: other in y.cargo && other != id ==> z.cargo[other] == y.cargo[other])
    ensures !Claim(presences, y, c, id, now).accepted ==> Claim(presences, y, c, id, now).yard == y
  {
  }

  /** Cargo that another driver holds is not given away. */
  lemma HeldCargoIsRefused(presences: Presences, y: Yard, c: ClientId, id: CargoId, now: int)
    requires id in y.cargo && y.cargo[id].owner.Some? && y.cargo[id].owner != Some(c)
    requires y.cargo[id].claimExpires == 0 || y.cargo[id].claimExpires > Millis(now)
    ensures Claim(presences, y, c, id, now) == Handled(y, false)
  {
    ClaimedIffFree(presences, y, c, id, now);
  }

  /** An owner beside it moves its cargo, and nobody else does. */
  lemma MovedIffOwned(presences: Presences, y: Yard, c: ClientId, message: CargoMessage, now: int)
    requires y.cargo.Keys == y.spawns.Keys
    ensures Update(presences, y, c, message, now).accepted
      <==>
        && message.wellFormed && message.id in y.cargo && y.cargo[message.id].owner == Some(c)
        && c in presences && presences[c].world == y.cargo[message.id].world
    ensures !Update(presences, y, c, message, now).accepted ==> Update(presences, y, c, message, now).yard == y
  {
  }

  lemma NotesKeepCargo(y: Yard, id: CargoId, touching: bool, now: int)
    requires id in y.cargo && id in y.spawns
    ensures NoteDistance(NoteTouch(y, id, touching, now), id, now).cargo == y.cargo
  {
  }

  lemma MovedIsStored(y: Yard, c: ClientId, message: CargoMessage, now: int)
    requires message.id in y.cargo
    ensures
      var z, id := Moved(y, c, message, now), message.id;
      && z.cargo == y.cargo[id := z.cargo[id]] && z.cargo[id].at == message.at && z.cargo[id].owner == Some(c)
      && z.cargo[id].world == y.cargo[id].world && z.cargo[id].claimExpires == ClaimExpiry(y.cargo[id], message.touching, now)
      && z.spawns == y.spawns
  {
  }

  lemma MoveIsStored(presences: Presences, y: Yard, c: ClientId, message: CargoMessage, now: int)
    requires y.cargo.Keys == y.spawns.Keys && Update(presences, y, c, message, now).accepted
    ensures
      var z, id := Update(presences, y, c, message, now).yard, message.id;
      && z.cargo.Keys == y.cargo.Keys && z.cargo[id].at == message.at && z.cargo[id].owner == Some(c)
      && z.cargo[id].world == y.cargo[id].world
      && (message.touching ==> z.cargo[id].claimExpires == 0)
      && (!message.touching && y.cargo[id].claimExpires > 0 ==> z.cargo[id].claimExpires == y.cargo[id].claimExpires)
      && (!message.touching && y.cargo[id].claimExpires <= 0 ==> z.cargo[id].claimExpires == Millis(now + CLAIM_RELEASE_DELAY))
      && (forall other :: other in y.cargo && other != id ==> z.cargo[other] == y.cargo[other])
  {
    MovedIsStored(y, c, message, now);
    NotesKeepCargo(Moved(y, c, message, now), message.id, message.touching, now);
  }

  // ---------- Every step ----------

  /** How the owner, place and claim of one cargo may change between two yards. */
  ghost predicate Changes(y: Yard, z: Yard, op: Op, id: CargoId) {
    id in y.cargo && id in z.cargo ==>
      && (z.cargo[id].owner.Some? && z.cargo[id].owner != y.cargo[id].owner ==>
            && op.ClaimCargo? && op.cargo == id && z.cargo[id].owner == Some(op.c)
            && (y.cargo[id].owner.Some? ==> Lapsed(y.cargo[id], op.now)))
      && (z.cargo[id].at != y.cargo[id].at ==>
            op.MoveCargo? && op.load.id == id && y.cargo[id].owner == Some(op.c) && z.cargo[id].at == op.load.at)
      && z.cargo[id].world == y.cargo[id].world
      && (z.cargo[id].claimExpires > 0 && z.cargo[id].claimExpires != y.cargo[id].claimExpires ==>
            y.cargo[id].owner.Some? && Yields(op, y.cargo[id].owner.value, id))
  }

  /** A timer takes cargo from its owner: the claim ran out and the owner is not beside it, or nobody touched it for two seconds. */
  predicate Frees(presences: Presences, y: Yard, op: Op, id: CargoId) {
    id in y.cargo && y.cargo[id].owner.Some? && op.CargoTimer? &&
      match op.armed.timer
      case Release(freed, owner, expires) =>
        freed == id && owner == y.cargo[id].owner.value && expires == y.cargo[id].claimExpires && !Beside(presences, y.cargo[id])
      case AutoRight(righted, since) =>
        righted == id && Entry(y.untouched, id) == Some(since) && op.now - since >= 2 * SECOND
      case _ => false
  }

  /** A timer clears cargo away: it has no owner, nobody touched it for ten minutes, and its world has more than fifty. */
  predicate Clears(y: Yard, op: Op, id: CargoId) {
    && op.CargoTimer? && op.armed.timer.Cleanup? && op.armed.timer.id == id && id in y.cargo && y.cargo[id].owner.None?
    && Entry(y.touched, id) == Some(op.armed.timer.touched) && op.now - op.armed.timer.touched >= 10 * MINUTE
    && |set other | other in y.cargo && y.cargo[other].world == y.cargo[id].world| > 50
  }

  /** When cargo loses its owner, or goes. */
  ghost predicate Loses(presences: Presences, y: Yard, z: Yard, op: Op, id: CargoId) {
    && (id in y.cargo && id in z.cargo && y.cargo[id].owner.Some? && z.cargo[id].owner.None? ==> Frees(presences, y, op, id))
    && (id in y.cargo && id !in z.cargo ==> Clears(y, op, id))
  }

  /** Lets go of the cargo without giving it up: it is no longer touched, or its driver goes elsewhere. */
  predicate Yields(op: Op, c: ClientId, id: CargoId) {
    || (op.MoveCargo? && op.c == c && op.load.id == id && !op.load.touching)
    || (op.Report? && op.c == c) || (op.GoAway? && op.c == c) || (op.Drop? && op.c == c) || (op.End? && op.c == c)
  }

  lemma ClaimChanges(presences: Presences, y: Yard, op: Op, id: CargoId)
    requires op.ClaimCargo?
    ensures Changes(y, Claim(presences, y, op.c, op.cargo, op.now).yard, op, id)
    ensures Loses(presences, y, Claim(presences, y, op.c, op.cargo, op.now).yard, op, id)
  {
    ClaimedIffFree(presences, y, op.c, op.cargo, op.now);
  }

  lemma MoveChanges(presences: Presences, y: Yard, op: Op, id: CargoId)
    requires y.cargo.Keys == y.spawns.Keys && op.MoveCargo?
    ensures Changes(y, Update(presences, y, op.c, op.load, op.now).yard, op, id)
    ensures Loses(presences, y, Update(presences, y, op.c, op.load, op.now).yard, op, id)
  {
    MovedIffOwned(presences, y, op.c, op.load, op.now);
    if Update(presences, y, op.c, op.load, op.now).accepted {
      MoveIsStored(presences, y, op.c, op.load, op.now);
    }
  }

  lemma ReleaseChanges(presences: Presences, y: Yard, freed: CargoId, owner: ClientId, expires: int, now: int, op: Op, id: CargoId)
    requires op.CargoTimer? && op.now == now && op.armed.timer == Release(freed, owner, expires)
    ensures Changes(y, FireRelease(presences, y, freed, owner, expires, now), op, id)
    ensures Loses(presences, y, FireRelease(presences, y, freed, owner, expires, now), op, id)
  {
  }

  lemma RightingChanges(presences: Presences, y: Yard, righted: CargoId, since: int, now: int, op: Op, id: CargoId)
    requires op.CargoTimer? && op.now == now && op.armed.timer == AutoRight(righted, since)
    ensures Changes(y, FireAutoRight(y, righted, since, now), op, id)
    ensures Loses(presences, y, FireAutoRight(y, righted, since, now), op, id)
  {
  }

  lemma CleanupChanges(presences: Presences, y: Yard, cleaned: CargoId, touched: int, now: int, op: Op, id: CargoId)
    requires op.CargoTimer? && op.now == now && op.armed.timer == Cleanup(cleaned, touched)
    ensures Changes(y, FireCleanup(y, cleaned, touched, now), op, id)
    ensures Loses(presences, y, FireCleanup(y, cleaned, touched, now), op, id)
  {
    if id in y.cargo {
      assert InWorld(y, y.cargo[id].world) == set other | other in y.cargo && y.cargo[other].world == y.cargo[id].world;
    }
  }

  lemma ReplenishChanges(presences: Presences, y: Yard, source: CargoId, since: int, now: int, op: Op, id: CargoId)
    requires y.cargo.Keys == y.spawns.Keys
    ensures Changes(y, FireReplenish(y, source, since, now), op, id)
    ensures Loses(presences, y, FireReplenish(y, source, since, now), op, id)
  {
  }

  lemma TimerChanges(presences: Presences, y: Yard, op: Op, id: CargoId)
    requires SideTablesMatch(y) && op.CargoTimer?
    ensures Changes(y, Fire(presences, y, op.armed, op.now), op, id)
    ensures Loses(presences, y, Fire(presences, y, op.armed, op.now), op, id)
  {
    var left := y.(timers := y.timers - multiset{op.armed});
    match op.armed.timer
    case Release(freed, owner, expires) => ReleaseChanges(presences, left, freed, owner, expires, op.now, op, id);
    case AutoRight(righted, since) => RightingChanges(presences, left, righted, since, op.now, op, id);
    case Replenish(source, since) => ReplenishChanges(presences, left, source, since, op.now, op, id);
    case Cleanup(cleaned, touched) => CleanupChanges(presences, left, cleaned, touched, op.now, op, id);
  }

  lemma MarkChanges(y: Yard, c: ClientId, op: Op, id: CargoId)
    requires (op.Report? || op.GoAway? || op.Drop? || op.End?) && op.c == c
    ensures Changes(y, MarkForRelease(y, c, op.now), op, id)
    ensures forall presences :: Loses(presences, y, MarkForRelease(y, c, op.now), op, id)
  {
  }

  lemma SameCargoChanges(y: Yard, z: Yard, op: Op, id: CargoId)
    requires z.cargo == y.cargo
    ensures Changes(y, z, op, id)
    ensures forall presences :: Loses(presences, y, z, op, id)
  {
  }

  /** A step that is not about cargo leaves it alone, or marks what its connection holds. */
  lemma OtherStepsLeaveOrMark(config: Config, h: Hub, op: Op)
    requires SideTablesMatch(h.cargo) && !op.ClaimCargo? && !op.MoveCargo? && !op.CargoTimer?
    ensures
      || Step(config, h, op).cargo == h.cargo
      || ((op.Report? || op.GoAway? || op.Drop? || op.End?) && Step(config, h, op).cargo == MarkForRelease(h.cargo, op.c, op.now))
  {
  }

  lemma OtherStepChanges(config: Config, h: Hub, op: Op, id: CargoId)
    requires SideTablesMatch(h.cargo) && !op.ClaimCargo? && !op.MoveCargo? && !op.CargoTimer?
    ensures Changes(h.cargo, Step(config, h, op).cargo, op, id)
    ensures Loses(h.members.presences, h.cargo, Step(config, h, op).cargo, op, id)
  {
    OtherStepsLeaveOrMark(config, h, op);
    if Step(config, h, op).cargo == h.cargo {
      SameCargoChanges(h.cargo, h.cargo, op, id);
    } else {
      MarkChanges(h.cargo, op.c, op, id);
    }
  }

  /** In every step. */
  lemma StepChanges(config: Config, h: Hub, op: Op, id: CargoId)
    requires SideTablesMatch(h.cargo)
    ensures Changes(h.cargo, Step(config, h, op).cargo, op, id)
    ensures Loses(h.members.presences, h.cargo, Step(config, h, op).cargo, op, id)
  {
    if op.ClaimCargo? {
      ClaimChanges(h.members.presences, h.cargo, op, id);
    } else if op.MoveCargo? {
      MoveChanges(h.members.presences, h.cargo, op, id);
    } else if op.CargoTimer? {
      TimerChanges(h.members.presences, h.cargo, op, id);
    } else {
      OtherStepChanges(config, h, op, id);
    }
  }

  // ---------- Every run ----------

  /**
   * In every run of a new hub cargo passes from one driver to another only by the other's claim after the
   * first one's claim has lapsed; only its owner moves it; a claim is given an end only when its owner no
   * longer touches the cargo, or goes elsewhere; and cargo loses its owner, or goes, only by a timer to whose
   * conditions it is still up.
   */
  lemma CargoChangesHandsOnlyAsAllowed(config: Config, manifest: Manifest, start: int, ops: seq<Op>, op: Op, id: CargoId)
    requires config.Valid() && DistinctSpawns(manifest)
    ensures Consistent(config, NewHub(config, manifest, start))
    ensures
      var before := AfterOps(config, NewHub(config, manifest, start), ops);
      Enabled(before, op) ==>
        && Changes(before.cargo, Step(config, before, op).cargo, op, id)
        && Loses(before.members.presences, before.cargo, Step(config, before, op).cargo, op, id)
  {
    NewHubIsConsistent(config, manifest, start);
    StepChanges(config, AfterOps(config, NewHub(config, manifest, start), ops), op, id);
  }
}
