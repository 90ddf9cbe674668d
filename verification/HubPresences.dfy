/** Who is let in, heard and seen, and who drives what (internal/realtime/hub.go, internal/realtime/forklift.go). */
module HubPresences {
  import opened Common
  import opened TravelAccess
  import opened HubTypes
  import opened HubMembers
  import opened HubState
  import opened HubTheorems
  import Forklifts = HubForklifts

  // ---------- Connecting ----------

  /** The character is open on another connection, which the new one takes over. */
  predicate TakesOver(m: Members, client: Client) {
    client.character.Some? && client.character.value in m.active && m.active[client.character.value] in m.clients
  }

  /** A connection is let in if and only if there is room, or it takes over. */
  lemma LetInIffRoomOrTakeover(m: Members, maxClients: int, id: ClientId, client: Client)
    ensures Register(m, maxClients, id, client).accepted <==> |m.clients| < maxClients || TakesOver(m, client)
    ensures !Register(m, maxClients, id, client).accepted ==> Register(m, maxClients, id, client).members.clients == m.clients
  {
  }

  /** Then nobody else's place changes. */
  lemma LettingInIsForTheNewcomer(m: Members, maxClients: int, id: ClientId, client: Client)
    requires Register(m, maxClients, id, client).accepted
    ensures
      var n := Register(m, maxClients, id, client).members;
      && n.clients == m.clients[id := client]
      && n.presences == m.presences && n.grants == m.grants && n.arrivals == m.arrivals && n.rooms == m.rooms
  {
  }

  /** And its character is its own. */
  lemma TheCharacterIsTheNewcomers(m: Members, maxClients: int, id: ClientId, client: Client, ch: int)
    requires Register(m, maxClients, id, client).accepted
    ensures
      var n := Register(m, maxClients, id, client).members;
      Lookup(n.active, ch) == if client.character == Some(ch) then Some(id) else Lookup(m.active, ch)
  {
  }

  /** A connection that goes takes everything of its own along, and its character only if it still has it. */
  lemma DroppingTakesAllAlong(m: Members, c: ClientId)
    requires c in m.clients
    ensures
      var n := Unregister(m, c);
      && n.clients == m.clients - {c} && n.presences == m.presences - {c} && n.grants == m.grants - {c}
      && n.arrivals == m.arrivals - {c} && n.departed == m.departed - {c}
      && (forall ch :: ch in n.active ==> ch in m.active && n.active[ch] == m.active[ch])
      && (forall ch :: ch in m.active && ch !in n.active ==> m.active[ch] == c && m.clients[c].character == Some(ch))
      && (forall ch :: m.clients[c].character == Some(ch) && ch in m.active && m.active[ch] == c ==> ch !in n.active)
  {
  }

  // ---------- Presences ----------

  /** A message that says something new: later than the last, and without another animation for the same revision. */
  predicate IsNews(m: Members, c: ClientId, message: PresenceMessage) {
    c !in m.presences
    || (&& message.sequence > m.presences[c].sequence
        && message.animationRevision >= m.presences[c].animationRevision
        && (message.animationRevision == m.presences[c].animationRevision && message.animation.Some? ==>
              message.animation == m.presences[c].animation))
  }

  /** A world that a connection may be in. */
  predicate MayBeIn(config: Config, m: Members, c: ClientId, world: string) {
    if c in m.arrivals && m.arrivals[c].destination == world then true
    else if c in m.arrivals && m.arrivals[c].source == world then false
    else
      || world !in config.access.controlled
      || (c in m.presences && m.presences[c].world == world)
      || (c !in m.presences && c in m.departed && m.departed[c] == world)
      || (c !in m.announced && c in m.clients && m.clients[c].initialWorld == world)
  }

  /** The forklift asked for is there, and nobody else drives it. */
  predicate MayDrive(h: Hub, c: ClientId, world: string, v: ForkliftId) {
    && v in h.yard.forklifts && h.yard.forklifts[v].world == world
    && (v in h.yard.owners ==> h.yard.owners[v] == c)
  }

  predicate MayReport(config: Config, h: Hub, c: ClientId, message: PresenceMessage) {
    && c in h.members.clients && message.wellFormed && message.world in config.worlds
    && (message.vehicle.Some? ==> message.vehicle.value in config.home || message.vehicle.value.Dynamic?)
    && IsNews(h.members, c, message) && MayBeIn(config, h.members, c, message.world)
  }

  /** A presence is accepted if and only if it is news from somewhere its connection may be. */
  lemma AcceptedIffMayReport(config: Config, h: Hub, c: ClientId, message: PresenceMessage, now: int)
    ensures HandlePresence(config, h, c, message, now).accepted <==> MayReport(config, h, c, message)
  {
  }

  /** An accepted presence is stored as it was sent, with the forklift asked for if it may be driven. */
  lemma AcceptedIsStored(config: Config, h: Hub, c: ClientId, message: PresenceMessage, now: int)
    requires HandlePresence(config, h, c, message, now).accepted
    ensures
      var n := HandlePresence(config, h, c, message, now).hub.members;
      && c in n.presences && n.presences == h.members.presences[c := n.presences[c]]
      && var p := n.presences[c];
      && p.world == message.world && p.at == message.at && p.sequence == message.sequence
      && p.animation == message.animation && p.animationRevision == message.animationRevision
      && (message.vehicle.Some? && MayDrive(h, c, message.world, message.vehicle.value) ==> p.vehicle == message.vehicle)
      && (message.vehicle.Some? && !MayDrive(h, c, message.world, message.vehicle.value) ==> p.vehicle == None)
      && (message.vehicle.None? ==> p.vehicle == None)
  {
  }

  /** A refused one changes nothing, but that an arrival is given up by whoever goes elsewhere than back. */
  lemma RefusedChangesNothing(config: Config, h: Hub, c: ClientId, message: PresenceMessage, now: int)
    requires !HandlePresence(config, h, c, message, now).accepted
    ensures
      var n := HandlePresence(config, h, c, message, now).hub;
      n == if Heard(config, h.members, c, message) && c in h.members.arrivals && h.members.arrivals[c].source != message.world
           then h.(members := h.members.(arrivals := h.members.arrivals - {c})) else h
  {
  }

  /** Being let into a world settles a connection: no arrival is left, nor a grant for a door elsewhere. */
  lemma AllowedSettles(config: Config, m: Members, c: ClientId, world: string)
    requires Coupled(config, m) && AllowDestination(config, m, c, world).accepted
    ensures
      var n := AllowDestination(config, m, c, world).members;
      && n.arrivals == m.arrivals - {c} && n.departed == m.departed - {c}
      && n.grants == if c in m.grants && m.grants[c].rule.source != world then m.grants - {c} else m.grants
  {
    if c in m.arrivals {
      assert Pending(m, c);
    } else {
      assert m.arrivals - {c} == m.arrivals;
    }
  }

  lemma PlacingSettlesNothing(m: Members, c: ClientId, presence: Presence)
    ensures
      var n := Place(m, c, presence);
      n.arrivals == m.arrivals && n.departed == m.departed && n.grants == m.grants
  {
  }

  lemma AcceptedIsPlaced(config: Config, h: Hub, c: ClientId, message: PresenceMessage, now: int)
    requires HandlePresence(config, h, c, message, now).accepted
    ensures AllowDestination(config, h.members, c, message.world).accepted
    ensures
      HandlePresence(config, h, c, message, now).hub.members
      == Place(AllowDestination(config, h.members, c, message.world).members, c, StoredPresence(h, c, message))
  {
  }

  /** An accepted presence settles its connection in the world it names. */
  lemma AcceptedSettles(config: Config, h: Hub, c: ClientId, message: PresenceMessage, now: int)
    requires Coupled(config, h.members) && HandlePresence(config, h, c, message, now).accepted
    ensures
      var n := HandlePresence(config, h, c, message, now).hub.members;
      && n.arrivals == h.members.arrivals - {c} && n.departed == h.members.departed - {c}
      && n.grants
         == if c in h.members.grants && h.members.grants[c].rule.source != message.world then h.members.grants - {c} else h.members.grants
  {
    AcceptedIsPlaced(config, h, c, message, now);
    AllowedSettles(config, h.members, c, message.world);
    PlacingSettlesNothing(AllowDestination(config, h.members, c, message.world).members, c, StoredPresence(h, c, message));
  }

  /** Who leaves a world gives up what was granted, and is remembered as having been there. */
  lemma LeavingGivesUp(config: Config, h: Hub, c: ClientId, now: int)
    ensures
      var n := LeaveWorld(config, h, c, now).members;
      && n.presences == h.members.presences - {c} && n.grants == h.members.grants - {c} && n.arrivals == h.members.arrivals - {c}
      && n.departed == (if c in h.members.presences then h.members.departed[c := h.members.presences[c].world] else h.members.departed)
  {
  }

  // ---------- Every step ----------

  /** How the presence of `d` may change. */
  ghost predicate Appears(config: Config, h: Hub, n: Members, op: Op, d: ClientId) {
    && (d in n.presences && d !in h.members.presences ==> op.Report? && op.c == d && MayReport(config, h, d, op.message))
    && (d in n.presences && d in h.members.presences && n.presences[d] != h.members.presences[d] ==>
          && op.Report? && op.c == d && MayReport(config, h, d, op.message)
          && n.presences[d].sequence > h.members.presences[d].sequence)
    && (d !in n.presences && d in h.members.presences ==>
          (op.GoAway? && op.c == d) || (op.Drop? && op.c == d) || (op.End? && op.c == d))
  }

  lemma ReportAppears(config: Config, h: Hub, op: Op, d: ClientId)
    requires op.Report? && h.cargo.cargo.Keys == h.cargo.spawns.Keys
    ensures Appears(config, h, Step(config, h, op).members, op, d)
  {
    AcceptedIffMayReport(config, h, op.c, op.message, op.now);
    if HandlePresence(config, h, op.c, op.message, op.now).accepted {
      AcceptedIsStored(config, h, op.c, op.message, op.now);
    } else {
      RefusedChangesNothing(config, h, op.c, op.message, op.now);
    }
  }

  lemma DoorStepsAppear(config: Config, h: Hub, op: Op, d: ClientId)
    requires (op.AskDoor? || op.Begin? || op.End? || op.GoAway?) && h.cargo.cargo.Keys == h.cargo.spawns.Keys
    ensures Appears(config, h, Step(config, h, op).members, op, d)
  {
  }

  lemma OtherStepsAppear(config: Config, h: Hub, op: Op, d: ClientId)
    requires !op.Report? && !op.AskDoor? && !op.Begin? && !op.End? && !op.GoAway? && h.cargo.cargo.Keys == h.cargo.spawns.Keys
    ensures Appears(config, h, Step(config, h, op).members, op, d)
  {
  }

  /**
   * In every run a connection is seen, moves and goes only by its own messages: it appears and moves by a
   * presence that may be reported, always with a later number, and goes by leaving, a transition or disconnecting.
   */
  lemma PresencesChangeByTheirOwn(config: Config, manifest: HubState.Freight.Manifest, now: int, ops: seq<Op>, op: Op, d: ClientId)
    requires config.Valid() && HubState.Freight.DistinctSpawns(manifest)
    ensures Consistent(config, NewHub(config, manifest, now))
    ensures
      var h := AfterOps(config, NewHub(config, manifest, now), ops);
      Enabled(h, op) ==> Appears(config, h, Step(config, h, op).members, op, d)
  {
    NewHubIsConsistent(config, manifest, now);
    var h := AfterOps(config, NewHub(config, manifest, now), ops);
    if op.Report? {
      ReportAppears(config, h, op, d);
    } else if op.AskDoor? || op.Begin? || op.End? || op.GoAway? {
      DoorStepsAppear(config, h, op, d);
    } else {
      OtherStepsAppear(config, h, op, d);
    }
  }

  // ---------- Forklifts ----------

  /** A forklift is moved by its driver, or by anybody in its world while it has none; it is released by its driver. */
  lemma ForkliftUpdatedIff(config: Config, presences: Presences, y: Forklifts.Yard, c: ClientId, message: Forklifts.ForkliftMessage, now: int)
    ensures Forklifts.Update(config, presences, y, c, message, now).accepted
      <==>
        && message.wellFormed && (message.id in config.home || message.id.Dynamic?)
        && c in presences && message.id in y.forklifts && y.forklifts[message.id].world == presences[c].world
        && (if message.id in y.owners then y.owners[message.id] == c else !message.release)
    ensures !Forklifts.Update(config, presences, y, c, message, now).accepted ==> Forklifts.Update(config, presences, y, c, message, now).yard == y
  {
  }

  /** A released forklift has no driver, and in the race worlds five minutes left. */
  lemma ReleaseIsStored(config: Config, presences: Presences, y: Forklifts.Yard, c: ClientId, message: Forklifts.ForkliftMessage, now: int)
    requires Forklifts.Update(config, presences, y, c, message, now).accepted
    ensures
      var z, v := Forklifts.Update(config, presences, y, c, message, now).yard, message.id;
      && z.forklifts == y.forklifts[v := z.forklifts[v]] && z.forklifts[v].world == y.forklifts[v].world && z.forklifts[v].id == v
      && (message.release ==>
            && z.owners == y.owners - {v} && z.forklifts[v].owner == None
            && z.forklifts[v].expires == if presences[c].world in {"ma00race", "ma00"} then Millis(now + 5 * MINUTE) else 0)
      && (!message.release ==>
            z.owners == y.owners && z.forklifts[v].owner == Lookup(y.owners, v) && z.forklifts[v].expires == 0)
  {
  }

  /** How many forklifts a world may have spawned. */
  function Places(world: string): (n: nat) {
    if world in {"mfsy", "ma00race"} then 20 else 1
  }

  /** One more is spawned in the world of whoever asks, if there is a place, with five minutes until somebody drives it. */
  lemma SpawnedIffThereIsAPlace(presences: Presences, y: Forklifts.Yard, c: ClientId, digits: int, now: int)
    ensures
      var r := Forklifts.Spawn(presences, y, c, digits, now);
      && (r.accepted <==>
            && c in presences
            && |set v | v in y.forklifts && v.Dynamic? && y.forklifts[v].world == presences[c].world| < Places(presences[c].world))
      && (!r.accepted ==> r.yard == y)
      && (r.accepted ==>
            var expires := Millis(now + 5 * MINUTE);
            && r.yard.forklifts == y.forklifts[Dynamic(digits) := Forklifts.Forklift(Dynamic(digits), presences[c].world, None, expires)]
            && r.yard.owners == y.owners
            && r.yard.timers == y.timers + multiset{Forklifts.Expiry(Dynamic(digits), expires)})
  {
    if c in presences {
      assert Forklifts.DynamicIn(y.forklifts, presences[c].world)
        == set v | v in y.forklifts && v.Dynamic? && y.forklifts[v].world == presences[c].world;
    }
  }

  /** A forklift goes when the timer of its own release fires while nobody drives it, and a configured one comes back home. */
  lemma ExpiredIffStillReleased(config: Config, y: Forklifts.Yard, v: ForkliftId, expires: int)
    ensures
      var z, up := Forklifts.Fire(config, y, Forklifts.Expiry(v, expires)), y.timers - multiset{Forklifts.Expiry(v, expires)};
      && z.owners == y.owners
      && (v in y.forklifts && y.forklifts[v].owner == None && y.forklifts[v].expires == expires ==>
            && z.forklifts == y.forklifts - {v}
            && z.timers == if v in config.home then up + multiset{Forklifts.Respawn(v)} else up)
      && (!(v in y.forklifts && y.forklifts[v].owner == None && y.forklifts[v].expires == expires) ==>
            z.forklifts == y.forklifts && z.timers == up)
    ensures
      var z := Forklifts.Fire(config, y, Forklifts.Respawn(v));
      z.owners == y.owners
      && if v in config.home && v !in y.forklifts
         then z.forklifts == y.forklifts[v := Forklifts.Forklift(v, config.home[v], None, 0)]
         else z.forklifts == y.forklifts
  {
  }

  /** A driver who leaves the world takes a spawned forklift along and sends a configured one home; one who disconnects abandons it. */
  lemma LeavingAndDropping(config: Config, y: Forklifts.Yard, c: ClientId, v: ForkliftId, now: int)
    requires v in y.forklifts && y.forklifts[v].id == v && v in y.owners && y.owners[v] == c
    ensures
      var left, dropped := Forklifts.LeaveWith(config, y, c, Some(v)), Forklifts.Abandon(y, c, Some(v), now);
      && left.owners == y.owners - {v} == dropped.owners
      && (if v in config.home then left.forklifts == y.forklifts[v := Forklifts.Forklift(v, config.home[v], None, 0)]
          else left.forklifts == y.forklifts - {v})
      && dropped.forklifts == y.forklifts[v := y.forklifts[v].(owner := None, expires := Millis(now + 5 * MINUTE))]
      && Forklifts.Expiry(v, Millis(now + 5 * MINUTE)) in dropped.timers
  {
  }

  /** Getting off frees the forklift, in the race worlds for five minutes. */
  lemma GettingOffFrees(y: Forklifts.Yard, c: ClientId, v: ForkliftId, vehicle: Option<ForkliftId>, now: int)
    requires v in y.forklifts && y.forklifts[v].id == v && vehicle != Some(v)
    ensures
      var z, f := Forklifts.Drive(y, c, Some(v), vehicle, now), y.forklifts[v];
      var expires := if f.world in {"ma00race", "ma00"} then Millis(now + 5 * MINUTE) else 0;
      && v in z.forklifts && z.forklifts[v] == f.(owner := None, expires := expires)
      && (expires > 0 ==> Forklifts.Expiry(v, expires) in z.timers)
  {
  }

  /** Getting on makes it the driver's, and keeps it from expiring. */
  lemma GettingOnKeeps(y: Forklifts.Yard, c: ClientId, previous: Option<ForkliftId>, v: ForkliftId, now: int)
    requires v in y.forklifts && v != Unnamed && forall u :: u in y.forklifts ==> y.forklifts[u].id == u
    ensures
      var z := Forklifts.Drive(y, c, previous, Some(v), now);
      v in z.forklifts && z.forklifts[v] == Forklifts.Forklift(v, y.forklifts[v].world, Some(c), 0)
  {
  }

  /** How the registered driver of a forklift may change. */
  ghost predicate ChangesDriver(h: Hub, z: Forklifts.Yard, op: Op, v: ForkliftId) {
    && (v in z.owners && v !in h.yard.owners ==>
          op.Report? && op.c == z.owners[v] && op.message.vehicle == Some(v) && MayDrive(h, op.c, op.message.world, v))
    && (v in z.owners && v in h.yard.owners ==> z.owners[v] == h.yard.owners[v])
    && (v !in z.owners && v in h.yard.owners ==>
          var c := h.yard.owners[v];
          || (op.Report? && op.c == c && op.message.vehicle != Some(v)) || (op.Report? && op.c == c && !MayDrive(h, c, op.message.world, v))
          || (op.GoAway? && op.c == c) || (op.Drop? && op.c == c) || (op.End? && op.c == c)
          || (op.MoveForklift? && op.c == c && op.forklift.id == v && op.forklift.release))
  }

  /** Getting off and on changes the driver of these two forklifts only. */
  lemma DrivingChanges(
    y: Forklifts.Yard, c: ClientId, previous: Option<ForkliftId>, vehicle: Option<ForkliftId>, now: int, v: ForkliftId)
    ensures Lookup(Forklifts.Drive(y, c, previous, vehicle, now).owners, v)
      == if vehicle == Some(v) then Some(c)
         else if previous == Some(v) && Lookup(y.owners, v) == Some(c) then None
         else Lookup(y.owners, v)
  {
  }

  lemma ClaimedIffMayDrive(h: Hub, c: ClientId, world: string, asked: Option<ForkliftId>)
    ensures Forklifts.Claimable(h.yard, c, world, asked)
      == if asked.Some? && MayDrive(h, c, world, asked.value) then asked else None
  {
  }

  lemma AcceptedDrives(config: Config, h: Hub, c: ClientId, message: PresenceMessage, now: int)
    requires HandlePresence(config, h, c, message, now).accepted
    ensures
      HandlePresence(config, h, c, message, now).hub.yard
      == Forklifts.Drive(
           h.yard, c, VehicleOf(h.members.presences, c), Forklifts.Claimable(h.yard, c, message.world, message.vehicle), now)
  {
    AllowingMovesNobody(config, h.members, c, message.world);
  }

  lemma AllowingMovesNobody(config: Config, m: Members, c: ClientId, world: string)
    ensures AllowDestination(config, m, c, world).members.presences == m.presences
  {
  }

  lemma ReportDrives(config: Config, h: Hub, op: Op)
    requires op.Report? && h.cargo.cargo.Keys == h.cargo.spawns.Keys
    ensures
      var vehicle := Forklifts.Claimable(h.yard, op.c, op.message.world, op.message.vehicle);
      var z := Step(config, h, op).yard;
      z == h.yard || z == Forklifts.Drive(h.yard, op.c, VehicleOf(h.members.presences, op.c), vehicle, op.now)
  {
    if HandlePresence(config, h, op.c, op.message, op.now).accepted {
      AcceptedDrives(config, h, op.c, op.message, op.now);
    } else {
      RefusedChangesNothing(config, h, op.c, op.message, op.now);
    }
  }

  lemma DriveChangesDriver(h: Hub, op: Op, previous: Option<ForkliftId>, vehicle: Option<ForkliftId>, v: ForkliftId)
    requires op.Report?
    requires
      vehicle == if op.message.vehicle.Some? && MayDrive(h, op.c, op.message.world, op.message.vehicle.value) then op.message.vehicle else None
    ensures ChangesDriver(h, Forklifts.Drive(h.yard, op.c, previous, vehicle, op.now), op, v)
  {
    DrivingChanges(h.yard, op.c, previous, vehicle, op.now, v);
    var z := Forklifts.Drive(h.yard, op.c, previous, vehicle, op.now);
    assert v in z.owners <==> Lookup(z.owners, v).Some?;
  }

  lemma ReportChangesDriver(config: Config, h: Hub, op: Op, v: ForkliftId)
    requires op.Report? && h.cargo.cargo.Keys == h.cargo.spawns.Keys
    ensures ChangesDriver(h, Step(config, h, op).yard, op, v)
  {
    ReportDrives(config, h, op);
    if Step(config, h, op).yard != h.yard {
      ClaimedIffMayDrive(h, op.c, op.message.world, op.message.vehicle);
      DriveChangesDriver(
        h, op, VehicleOf(h.members.presences, op.c), Forklifts.Claimable(h.yard, op.c, op.message.world, op.message.vehicle), v);
    }
  }

  lemma YardStepsChangeDriver(config: Config, h: Hub, op: Op, v: ForkliftId)
    requires (op.MoveForklift? || op.SpawnForklift? || op.ForkliftTimer?) && h.cargo.cargo.Keys == h.cargo.spawns.Keys
    ensures ChangesDriver(h, Step(config, h, op).yard, op, v)
  {
  }

  lemma GoingChangesDriver(config: Config, h: Hub, op: Op, v: ForkliftId)
    requires (op.GoAway? || op.Drop? || op.End?) && h.cargo.cargo.Keys == h.cargo.spawns.Keys
    ensures ChangesDriver(h, Step(config, h, op).yard, op, v)
  {
  }

  lemma OtherStepsChangeDriver(config: Config, h: Hub, op: Op, v: ForkliftId)
    requires !op.Report? && h.cargo.cargo.Keys == h.cargo.spawns.Keys
    ensures ChangesDriver(h, Step(config, h, op).yard, op, v)
  {
    if op.MoveForklift? || op.SpawnForklift? || op.ForkliftTimer? {
      YardStepsChangeDriver(config, h, op, v);
    } else if op.GoAway? || op.Drop? || op.End? {
      GoingChangesDriver(config, h, op, v);
    } else {
      assert Step(config, h, op).yard == h.yard;
    }
  }

  /** In every run nobody loses a forklift to another driver: it is taken when nobody drives it, and given up by its own. */
  lemma ForkliftsAreNeverTakenAway(config: Config, manifest: HubState.Freight.Manifest, now: int, ops: seq<Op>, op: Op, v: ForkliftId)
    requires config.Valid() && HubState.Freight.DistinctSpawns(manifest)
    ensures Consistent(config, NewHub(config, manifest, now))
    ensures
      var h := AfterOps(config, NewHub(config, manifest, now), ops);
      Enabled(h, op) ==> ChangesDriver(h, Step(config, h, op).yard, op, v)
  {
    NewHubIsConsistent(config, manifest, now);
    var h := AfterOps(config, NewHub(config, manifest, now), ops);
    if op.Report? {
      ReportChangesDriver(config, h, op, v);
    } else {
      OtherStepsChangeDriver(config, h, op, v);
    }
  }
}
