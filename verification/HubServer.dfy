/** The hub itself: its tables changed in place under one lock, against the steps of HubState (internal/realtime). */
module HubServer {
  import opened Common
  import opened TravelAccess
  import opened HubTypes
  import opened HubMembers
  import HubState
  import Forklifts = HubForklifts
  import Freight = HubCargo

  class Hub {
    const config: Config
    var members: Members
    var yard: Forklifts.Yard
    var freight: Freight.Yard

    ghost function Value(): (h: HubState.Hub)
      reads this
    {
      HubState.Hub(members, yard, freight)
    }

    constructor (config: Config, manifest: Freight.Manifest, now: int)
      ensures this.config == config && Value() == HubState.NewHub(config, manifest, now)
    {
      this.config := config;
      members := Members(map[], {}, map[], map[], map[], map[], map[], map[], {}, {});
      yard := Forklifts.Yard(map id | id in config.home :: Forklifts.Forklift(id, config.home[id], None, 0), map[], multiset{});
      freight := Freight.Yard(
        map id | id in manifest.spawns ::
          Freight.Cargo(manifest.spawns[id].0, manifest.spawns[id].1, None, 0, false, Millis(now)),
        map id | id in manifest.spawns :: manifest.spawns[id].1,
        map[], map[], map[], {}, Freight.FIRST_JOB, multiset{});
    }

    // ---------- Connections ----------

    method Register(id: ClientId, client: Client) returns (accepted: bool)
      modifies this`members
      ensures Admission(members, accepted) == HubMembers.Register(old(members), config.maxClients, id, client)
    {
      var replaced := false;
      if client.character.Some? && client.character.value in members.active {
        replaced := members.active[client.character.value] in members.clients;
      }
      if client.character.Some? && !replaced {
        members := members.(active := members.active - {client.character.value});
      }
      if |members.clients| >= config.maxClients && !replaced {
        return false;
      }
      members := members.(clients := members.clients[id := client]);
      members := members.(issued := members.issued + {id});
      if client.character.Some? {
        members := members.(active := members.active[client.character.value := id]);
      }
      return true;
    }

    method RemoveFromRoom(c: ClientId, world: string)
      modifies this`members
      ensures members == old(members).(rooms := RoomsWithout(old(members.rooms), c, world))
    {
      if world !in members.rooms { return; }
      members := members.(rooms := members.rooms[world := members.rooms[world] - {c}]);
      if members.rooms[world] == {} {
        members := members.(rooms := members.rooms - {world});
      }
    }

    /** Forgets the connection; its presence is returned if it had one. */
    method ForgetClient(c: ClientId) returns (presence: Option<Presence>)
      requires c in members.clients
      modifies this`members
      ensures members == HubMembers.Unregister(old(members), c) && presence == Lookup(old(members.presences), c)
    {
      var client := members.clients[c];
      members := members.(clients := members.clients - {c});
      members := members.(departed := members.departed - {c}, grants := members.grants - {c}, arrivals := members.arrivals - {c});
      if client.character.Some? && client.character.value in members.active && members.active[client.character.value] == c {
        members := members.(active := members.active - {client.character.value});
      }
      if c in members.presences {
        presence := Some(members.presences[c]);
        members := members.(presences := members.presences - {c});
        RemoveFromRoom(c, presence.value.world);
      } else {
        presence := None;
        assert members.presences - {c} == members.presences;
      }
    }

    method Unregister(c: ClientId, now: int)
      modifies this
      ensures Value() == HubState.Disconnect(old(Value()), c, now)
    {
      if c !in members.clients { return; }
      var left := ForgetClient(c);
      if left.Some? {
        MarkClientCargoForRelease(c, now);
        AbandonForklift(c, left.value.vehicle, now);
      }
    }

    method AbandonForklift(c: ClientId, vehicle: Option<ForkliftId>, now: int)
      modifies this`yard
      ensures yard == Forklifts.Abandon(old(yard), c, vehicle, now)
    {
      if vehicle.None? { return; }
      var abandoned := ForkliftState(vehicle.value).(
        owner := None, expires := Millis(now + Forklifts.ABANDONED_FORKLIFT_LIFETIME));
      yard := yard.(forklifts := yard.forklifts[abandoned.id := abandoned]);
      ScheduleForkliftExpiry(abandoned.id, abandoned.expires);
      ReleaseForklift(c, vehicle);
    }

    // ---------- Forklifts ----------

    function ForkliftState(id: ForkliftId): (f: Forklifts.Forklift)
      reads this
      ensures f == Forklifts.StateOf(yard, id)
    {
      if id in yard.forklifts then yard.forklifts[id] else Forklifts.ZERO_FORKLIFT
    }

    method ReleaseForklift(c: ClientId, vehicle: Option<ForkliftId>)
      modifies this`yard
      ensures yard == Forklifts.Disown(old(yard), c, vehicle)
    {
      if vehicle.Some? && vehicle.value in yard.owners && yard.owners[vehicle.value] == c {
        yard := yard.(owners := yard.owners - {vehicle.value});
      }
    }

    method ScheduleForkliftExpiry(id: ForkliftId, expires: int)
      modifies this`yard
      ensures yard == old(yard).(timers := old(yard.timers) + multiset{Forklifts.Expiry(id, expires)})
    {
      yard := yard.(timers := yard.timers + multiset{Forklifts.Expiry(id, expires)});
    }

    /** The forklift part of a presence: get off the previous vehicle, then on to the claimed one. */
    method Drive(c: ClientId, previous: Option<ForkliftId>, vehicle: Option<ForkliftId>, now: int)
      modifies this`yard
      ensures yard == Forklifts.Drive(old(yard), c, previous, vehicle, now)
    {
      if previous.Some? && previous != vehicle {
        var state := ForkliftState(previous.value);
        var released := state.(owner := None, expires := Forklifts.ReleaseExpiry(state.world, now));
        yard := yard.(forklifts := yard.forklifts[released.id := released]);
        if released.expires > 0 {
          ScheduleForkliftExpiry(released.id, released.expires);
        }
        ReleaseForklift(c, previous);
      }
      if vehicle.Some? {
        yard := yard.(owners := yard.owners[vehicle.value := c]);
        yard := yard.(forklifts := yard.forklifts[vehicle.value := ForkliftState(vehicle.value).(id := vehicle.value, owner := Some(c), expires := 0)]);
      }
    }

    method HandleForkliftUpdate(c: ClientId, message: Forklifts.ForkliftMessage, now: int) returns (accepted: bool)
      modifies this`yard
      ensures Forklifts.Handled(yard, accepted) == Forklifts.Update(config, members.presences, old(yard), c, message, now)
    {
      var id := message.id;
      if !config.ValidForklift(id) || !message.wellFormed { return false; }
      if c !in members.presences || id !in yard.forklifts || yard.forklifts[id].world != members.presences[c].world { return false; }
      var owned := id in yard.owners && yard.owners[id] == c;
      if message.release {
        if !owned { return false; }
        yard := yard.(owners := yard.owners - {id});
      } else if id in yard.owners && !owned {
        return false;
      }
      var world := members.presences[c].world;
      var owner := if !message.release && owned then Some(c) else None;
      var expires := if message.release then Forklifts.ReleaseExpiry(world, now) else 0;
      yard := yard.(forklifts := yard.forklifts[id := Forklifts.Forklift(id, world, owner, expires)]);
      if expires > 0 {
        ScheduleForkliftExpiry(id, expires);
      }
      return true;
    }

    method DynamicForkliftCount(world: string) returns (count: nat)
      ensures count == |Forklifts.DynamicIn(yard.forklifts, world)|
    {
      count := 0;
      var todo := yard.forklifts.Keys;
      ghost var found: set<ForkliftId> := {};
      while todo != {}
        invariant todo <= yard.forklifts.Keys
        invariant found == Forklifts.DynamicIn(yard.forklifts, world) - todo
        invariant count == |found|
        decreases todo
      {
        var id :| id in todo;
        todo := todo - {id};
        if id.Dynamic? && yard.forklifts[id].world == world {
          count := count + 1;
          found := found + {id};
        }
      }
      assert found == Forklifts.DynamicIn(yard.forklifts, world);
    }

    method HandleForkliftSpawn(c: ClientId, digits: int, now: int) returns (accepted: bool)
      modifies this`yard
      ensures Forklifts.Handled(yard, accepted) == Forklifts.Spawn(members.presences, old(yard), c, digits, now)
    {
      if c !in members.presences { return false; }
      var world := members.presences[c].world;
      var count := DynamicForkliftCount(world);
      if count >= Forklifts.SpawnLimit(world) { return false; }
      var id, expires := Dynamic(digits), Millis(now + Forklifts.ABANDONED_FORKLIFT_LIFETIME);
      yard := yard.(forklifts := yard.forklifts[id := Forklifts.Forklift(id, world, None, expires)]);
      ScheduleForkliftExpiry(id, expires);
      return true;
    }

    method FireForkliftTimer(timer: Forklifts.Timer)
      modifies this`yard
      ensures yard == Forklifts.Fire(config, old(yard), timer)
    {
      yard := yard.(timers := yard.timers - multiset{timer});
      match timer {
        case Expiry(id, expires) =>
          if id !in yard.forklifts || yard.forklifts[id].owner.Some? || yard.forklifts[id].expires != expires { return; }
          yard := yard.(forklifts := yard.forklifts - {id});
          if id in config.home {
            yard := yard.(timers := yard.timers + multiset{Forklifts.Respawn(id)});
          }
        case Respawn(id) =>
          if id !in config.home || id in yard.forklifts { return; }
          yard := yard.(forklifts := yard.forklifts[id := Forklifts.InitialForklift(config, id)]);
      }
    }

    // ---------- Presence ----------

    method AllowPresenceDestination(c: ClientId, world: string) returns (ok: bool)
      modifies this`members
      ensures Admission(members, ok) == AllowDestination(config, old(members), c, world)
    {
      if c in members.arrivals {
        var arrival := members.arrivals[c];
        if world == arrival.destination {
          members := members.(arrivals := members.arrivals - {c}, departed := members.departed - {c});
          return true;
        }
        if world == arrival.source { return false; }
      }
      var last := if c in members.presences then Some(members.presences[c].world) else Lookup(members.departed, c);
      var here := members.(arrivals := members.arrivals - {c});
      if world !in config.access.controlled {
        members := here.(departed := members.departed - {c});
        if c in members.grants && world != members.grants[c].rule.source {
          members := members.(grants := members.grants - {c});
        }
        return true;
      }
      if last == Some(world) || (c !in members.announced && c in members.clients && members.clients[c].initialWorld == world) {
        members := here.(departed := members.departed - {c});
        return true;
      }
      members := here;
      return false;
    }

    method Hear(c: ClientId, message: PresenceMessage) returns (heard: bool)
      ensures heard == Heard(config, members, c, message)
    {
      if !message.wellFormed || message.world !in config.worlds || c !in members.clients { return false; }
      if c in members.presences {
        var last := members.presences[c];
        if message.sequence <= last.sequence || message.animationRevision < last.animationRevision { return false; }
        if message.animationRevision == last.animationRevision && message.animation.Some?
          && message.animation != last.animation
        {
          return false;
        }
      }
      return message.vehicle.None? || config.ValidForklift(message.vehicle.value);
    }

    /** A contested or distant vehicle is not an error: the player stays visible, on foot. */
    method ClaimVehicle(c: ClientId, world: string, asked: Option<ForkliftId>) returns (vehicle: Option<ForkliftId>)
      ensures vehicle == Forklifts.Claimable(yard, c, world, asked)
    {
      vehicle := asked;
      if vehicle.Some? && (vehicle.value !in yard.forklifts || yard.forklifts[vehicle.value].world != world) {
        vehicle := None;
      }
      if vehicle.Some? && vehicle.value in yard.owners && yard.owners[vehicle.value] != c {
        vehicle := None;
      }
    }

    method StorePresence(c: ClientId, presence: Presence)
      modifies this`members
      ensures members == Place(old(members), c, presence)
    {
      members := members.(announced := members.announced + {c});
      var roomChanged := c in members.presences && members.presences[c].world != presence.world;
      if roomChanged {
        RemoveFromRoom(c, members.presences[c].world);
      }
      if c !in members.presences || roomChanged {
        members := members.(rooms := members.rooms[presence.world := if presence.world in members.rooms then members.rooms[presence.world] + {c} else {c}]);
      }
      members := members.(presences := members.presences[c := presence]);
    }

    /** Gets off and on forklifts, and gives up cargo when the room changes. */
    method MoveThings(c: ClientId, vehicle: Option<ForkliftId>, world: string, now: int)
      modifies this`yard, this`freight
      ensures yard == Forklifts.Drive(old(yard), c, HubState.VehicleOf(members.presences, c), vehicle, now)
      ensures freight
        == if HubState.ChangesRoom(members.presences, c, world) then Freight.MarkForRelease(old(freight), c, now) else old(freight)
    {
      Drive(c, if c in members.presences then members.presences[c].vehicle else None, vehicle, now);
      if c in members.presences && members.presences[c].world != world {
        MarkClientCargoForRelease(c, now);
      }
    }

    method HandlePresence(c: ClientId, message: PresenceMessage, now: int) returns (accepted: bool)
      modifies this
      ensures HubState.Outcome(Value(), accepted) == HubState.HandlePresence(config, old(Value()), c, message, now)
    {
      var heard := Hear(c, message);
      if !heard { return false; }
      accepted := AdmitPresence(c, message, now);
    }

    /** The rest of a presence that is well formed and new. */
    method AdmitPresence(c: ClientId, message: PresenceMessage, now: int) returns (accepted: bool)
      requires Heard(config, members, c, message)
      modifies this
      ensures accepted == AllowDestination(config, old(members), c, message.world).accepted
      ensures Value() == HubState.HandlePresence(config, old(Value()), c, message, now).hub
    {
      var vehicle := ClaimVehicle(c, message.world, message.vehicle);
      var allowed := AllowPresenceDestination(c, message.world);
      if !allowed { return false; }
      LetIn(
        c, Presence(message.world, message.at, vehicle, message.sequence, message.animation, message.animationRevision), now);
      return true;
    }

    method LetIn(c: ClientId, presence: Presence, now: int)
      modifies this
      ensures Value() == HubState.Admit(old(Value()), c, presence, now)
    {
      MoveThings(c, presence.vehicle, presence.world, now);
      StorePresence(c, presence);
    }

    // ---------- Leaving and doors ----------

    /** Gives up the client's place; false if it was nowhere. */
    method LeaveRoom(c: ClientId, preserveArrival: bool) returns (left: bool)
      modifies this`members
      ensures Admission(members, left) == Leave(old(members), c, preserveArrival)
    {
      if !preserveArrival {
        members := members.(grants := members.grants - {c}, arrivals := members.arrivals - {c});
      }
      if c !in members.presences { return false; }
      var world := members.presences[c].world;
      members := members.(presences := members.presences - {c});
      members := members.(departed := members.departed[c := world]);
      RemoveFromRoom(c, world);
      return true;
    }

    /** Leaves the world in one locked section. */
    method LeaveSection(c: ClientId, preserveArrival: bool, now: int) returns (left: bool)
      modifies this
      ensures left == (c in old(members.presences))
      ensures Value() == HubState.LeaveBehind(config, old(Value()), c, Leave(old(members), c, preserveArrival).members, now)
    {
      var vehicle := if c in members.presences then members.presences[c].vehicle else None;
      left := LeaveRoom(c, preserveArrival);
      if left {
        MarkClientCargoForRelease(c, now);
        TakeForkliftAway(c, vehicle);
      }
    }

    method TakeForkliftAway(c: ClientId, vehicle: Option<ForkliftId>)
      modifies this`yard
      ensures yard == Forklifts.LeaveWith(config, old(yard), c, vehicle)
    {
      if vehicle.None? { return; }
      if vehicle.value in config.home {
        yard := yard.(forklifts := yard.forklifts[vehicle.value := Forklifts.InitialForklift(config, vehicle.value)]);
      } else {
        yard := yard.(forklifts := yard.forklifts - {vehicle.value});
      }
      ReleaseForklift(c, vehicle);
    }

    method LeaveWorld(c: ClientId, now: int)
      modifies this
      ensures Value() == HubState.LeaveWorld(config, old(Value()), c, now)
    {
      var left := LeaveSection(c, false, now);
    }

    method HandleTransitionRequest(c: ClientId, q: TransitionRequest, gameTime: int, now: int, authorization: string)
      returns (reason: TransitionReason)
      requires c in members.clients
      modifies this`members
      ensures Decision(members, reason) == RequestTransition(config, old(members), c, q, gameTime, now, authorization)
    {
      members := members.(grants := members.grants - {c});
      if !ValidRequestId(q.requestId) { return InvalidRequest; }
      if q.transition !in config.access.rules { return UnknownTransition; }
      var rule := config.access.rules[q.transition];
      if q.source != rule.source { return SourceMismatch; }
      if q.door != rule.door { return DoorMismatch; }
      if q.destination != rule.destination { return DestinationMismatch; }
      if c !in members.presences { return NoPresence; }
      if members.presences[c].world != rule.source { return SourceMismatch; }
      if members.presences[c].vehicle.Some? { return NotOnFoot; }
      if !rule.WithinRange(members.presences[c].at) { return TooFar; }
      if !config.access.IsRuleOpen(rule, gameTime) { return Closed; }
      var grant := Grant(q.requestId, authorization, rule, now + rule.lifetime * MILLISECOND);
      assert old(members.grants)[c := grant] == members.grants[c := grant];
      members := members.(grants := members.grants[c := grant]);
      return Authorized;
    }

    /** The first locked section of HandleTransitionCommit. */
    method BeginTransitionCommit(c: ClientId, requestId: string, authorization: string, now: int)
      returns (reason: TransitionReason)
      requires c in members.clients
      modifies this`members
      ensures Decision(members, reason) == BeginCommit(old(members), c, requestId, authorization, now)
    {
      if c !in members.grants { return InvalidGrant; }
      var grant := members.grants[c];
      if grant.request != requestId || grant.authorization != authorization { return InvalidGrant; }
      members := members.(grants := members.grants - {c});
      if now >= grant.expires { return Expired; }
      if c !in members.presences || members.presences[c].world != grant.rule.source { return SourceMismatch; }
      if members.presences[c].vehicle.Some? { return NotOnFoot; }
      if !grant.rule.WithinRange(members.presences[c].at) { return TooFar; }
      members := members.(arrivals := members.arrivals[c := Arrival(grant.rule.source, grant.rule.destination)]);
      members := members.(committing := members.committing + {c});
      return Authorized;
    }

    /** The rest of HandleTransitionCommit; the client may have been unregistered in between. */
    method EndTransitionCommit(c: ClientId, now: int) returns (reason: TransitionReason)
      modifies this
      ensures Value() == HubState.FinishCommit(config, old(Value()), c, now) && reason == EndCommit(old(members), c).reason
    {
      members := members.(committing := members.committing - {c});
      var left := LeaveSection(c, true, now);
      if !left {
        members := members.(arrivals := members.arrivals - {c});
        return ConnectionClosed;
      }
      return Committed;
    }

    // ---------- Cargo ----------

    method HandleCargoClaim(c: ClientId, id: Freight.CargoId, now: int) returns (accepted: bool)
      modifies this`freight
      ensures Freight.Handled(freight, accepted) == Freight.Claim(members.presences, old(freight), c, id, now)
    {
      if c !in members.presences || id !in freight.cargo || freight.cargo[id].world != members.presences[c].world || members.presences[c].vehicle.None? { return false; }
      if DistanceSquared(members.presences[c].at, freight.cargo[id].at) > 36.0 { return false; }
      var state := freight.cargo[id];
      if state.owner.Some? && state.claimExpires > 0 && state.claimExpires <= Millis(now) {
        state := state.(owner := None, claimExpires := 0);
      }
      if state.owner.Some? && state.owner != Some(c) { return false; }
      freight := freight.(cargo := freight.cargo[id := state.(owner := Some(c), claimExpires := 0, autoRight := false, updated := Millis(now))]);
      freight := freight.(untouched := freight.untouched - {id});
      freight := freight.(touched := freight.touched[id := now]);
      return true;
    }

    method NoteTouch(id: Freight.CargoId, touching: bool, now: int)
      modifies this`freight
      ensures freight == Freight.NoteTouch(old(freight), id, touching, now)
    {
      if touching || id !in freight.touched {
        freight := freight.(touched := freight.touched[id := now]);
      }
      if touching {
        freight := freight.(untouched := freight.untouched - {id});
      } else if id !in freight.untouched {
        freight := freight.(untouched := freight.untouched[id := now]);
        var touched := freight.touched[id];
        freight := freight.(timers := freight.timers + multiset{Freight.Armed(Freight.AutoRight(id, now), now + Freight.AUTO_RIGHT_DELAY)});
        freight := freight.(timers := freight.timers + multiset{Freight.Armed(Freight.Cleanup(id, touched), Freight.Max(now, touched + Freight.CLEANUP_AGE))});
      }
    }

    method UpdateCargoReplenishment(id: Freight.CargoId, now: int)
      requires id in freight.cargo && id in freight.spawns
      modifies this`freight
      ensures freight == Freight.NoteDistance(old(freight), id, now)
    {
      var distance := DistanceSquared(freight.cargo[id].at, freight.spawns[id]);
      if id in freight.replaced || distance <= Freight.SPAWN_RADIUS * Freight.SPAWN_RADIUS {
        freight := freight.(away := freight.away - {id});
      } else if id !in freight.away {
        freight := freight.(away := freight.away[id := now]);
        freight := freight.(timers := freight.timers + multiset{Freight.Armed(Freight.Replenish(id, now), now + Freight.REPLENISH_DELAY)});
      }
    }

    method HandleCargoUpdate(c: ClientId, message: Freight.CargoMessage, now: int) returns (accepted: bool)
      requires freight.cargo.Keys == freight.spawns.Keys
      modifies this`freight
      ensures Freight.Handled(freight, accepted) == Freight.Update(members.presences, old(freight), c, message, now)
    {
      var id := message.id;
      if !message.wellFormed || c !in members.presences || id !in freight.cargo { return false; }
      if freight.cargo[id].world != members.presences[c].world || freight.cargo[id].owner != Some(c) { return false; }
      StoreCargo(c, message, now);
      NoteTouch(id, message.touching, now);
      UpdateCargoReplenishment(id, now);
      return true;
    }

    method StoreCargo(c: ClientId, message: Freight.CargoMessage, now: int)
      requires message.id in freight.cargo
      modifies this`freight
      ensures freight == Freight.Moved(old(freight), c, message, now)
    {
      var id, previous := message.id, freight.cargo[message.id];
      var expires := 0;
      if !message.touching {
        expires := if previous.claimExpires > 0 then previous.claimExpires else Millis(now + Freight.CLAIM_RELEASE_DELAY);
        if expires > 0 {
          freight := freight.(timers := freight.timers + multiset{Freight.Armed(Freight.Release(id, c, expires), Freight.Max(now, expires * MILLISECOND))});
        }
      }
      freight := freight.(cargo := freight.cargo[id := Freight.Cargo(previous.world, message.at, Some(c), expires, false, Millis(now))]);
    }

    method CargoInWorld(world: string) returns (count: nat)
      ensures count == |Freight.InWorld(freight, world)|
    {
      count := 0;
      var todo := freight.cargo.Keys;
      ghost var found: set<Freight.CargoId> := {};
      while todo != {}
        invariant todo <= freight.cargo.Keys
        invariant found == Freight.InWorld(freight, world) - todo
        invariant count == |found|
        decreases todo
      {
        var id :| id in todo;
        todo := todo - {id};
        if freight.cargo[id].world == world {
          count := count + 1;
          found := found + {id};
        }
      }
      assert found == Freight.InWorld(freight, world);
    }

    method CleanUpCargo(id: Freight.CargoId, touched: int, now: int)
      modifies this`freight
      ensures freight == Freight.FireCleanup(old(freight), id, touched, now)
    {
      if id !in freight.cargo || id !in freight.touched || freight.touched[id] != touched { return; }
      if freight.cargo[id].owner.Some? || now - touched < Freight.CLEANUP_AGE { return; }
      var count := CargoInWorld(freight.cargo[id].world);
      if count <= Freight.CLEANUP_THRESHOLD { return; }
      freight := freight.(cargo := freight.cargo - {id}, spawns := freight.spawns - {id}, away := freight.away - {id});
      freight := freight.(untouched := freight.untouched - {id}, touched := freight.touched - {id}, replaced := freight.replaced - {id});
    }

    method ReplenishCargo(source: Freight.CargoId, since: int, now: int)
      requires freight.cargo.Keys == freight.spawns.Keys
      modifies this`freight
      ensures freight == Freight.FireReplenish(old(freight), source, since, now)
    {
      if source !in freight.cargo || source !in freight.away || freight.away[source] != since { return; }
      if source in freight.replaced || now - since < Freight.REPLENISH_DELAY { return; }
      var spawn := freight.spawns[source];
      if DistanceSquared(freight.cargo[source].at, spawn) <= Freight.SPAWN_RADIUS * Freight.SPAWN_RADIUS { return; }
      var id, next := Freight.NextJob(freight.cargo, freight.nextId);
      freight := freight.(nextId := next);
      freight := freight.(cargo := freight.cargo[id := Freight.Cargo(freight.cargo[source].world, spawn, None, 0, false, Millis(now))]);
      freight := freight.(spawns := freight.spawns[id := spawn]);
      freight := freight.(touched := freight.touched[id := now]);
      freight := freight.(replaced := freight.replaced + {source});
      freight := freight.(away := freight.away - {source});
      freight := freight.(timers := freight.timers + multiset{Freight.Armed(Freight.Cleanup(id, now), now + Freight.CLEANUP_AGE)});
    }

    method ReleaseCargoClaim(id: Freight.CargoId, owner: ClientId, expires: int, now: int)
      modifies this`freight
      ensures freight == Freight.FireRelease(members.presences, old(freight), id, owner, expires, now)
    {
      if id !in freight.cargo || freight.cargo[id].owner != Some(owner) || freight.cargo[id].claimExpires != expires { return; }
      if owner in members.presences && members.presences[owner].world == freight.cargo[id].world { return; }
      freight := freight.(cargo := freight.cargo[id := freight.cargo[id].(owner := None, claimExpires := 0, updated := Millis(now))]);
    }

    method AutoRightCargo(id: Freight.CargoId, since: int, now: int)
      modifies this`freight
      ensures freight == Freight.FireAutoRight(old(freight), id, since, now)
    {
      if id !in freight.cargo || id !in freight.untouched || freight.untouched[id] != since || now - since < Freight.AUTO_RIGHT_DELAY { return; }
      freight := freight.(untouched := freight.untouched - {id});
      freight := freight.(cargo := freight.cargo[id := freight.cargo[id].(owner := None, claimExpires := 0, autoRight := true, updated := Millis(now))]);
    }

    method FireCargoTimer(armed: Freight.Armed, now: int)
      requires freight.cargo.Keys == freight.spawns.Keys
      modifies this`freight
      ensures freight == Freight.Fire(members.presences, old(freight), armed, now)
    {
      freight := freight.(timers := freight.timers - multiset{armed});
      match armed.timer {
        case Release(id, owner, expires) => ReleaseCargoClaim(id, owner, expires, now);
        case AutoRight(id, since) => AutoRightCargo(id, since, now);
        case Replenish(id, since) => ReplenishCargo(id, since, now);
        case Cleanup(id, touched) => CleanUpCargo(id, touched, now);
      }
    }

    method MarkCargo(id: Freight.CargoId, c: ClientId, expires: int, since: int, now: int)
      requires id in freight.cargo
      modifies this`freight
      ensures freight == MarkedOne(old(freight), id, c, expires, since, now)
    {
      freight := freight.(
        cargo := freight.cargo[id := freight.cargo[id].(claimExpires := expires, updated := Millis(now))],
        untouched := freight.untouched[id := since], touched := freight.touched[id := since]);
      var timers := freight.timers;
      if expires > 0 {
        timers := timers + multiset{Freight.Armed(Freight.Release(id, c, expires), Freight.Max(now, expires * MILLISECOND))};
      }
      timers := timers
        + multiset{Freight.Armed(Freight.AutoRight(id, since), now + Freight.AUTO_RIGHT_DELAY)}
        + multiset{Freight.Armed(Freight.Cleanup(id, since), since + Freight.CLEANUP_AGE)};
      freight := freight.(timers := timers);
    }

    /** Marks cargo one by one; `marked` says what the tables are once some of it has been. */
    method MarkEach(
      ids: set<Freight.CargoId>, c: ClientId, expires: int, since: int, now: int,
      ghost marked: set<Freight.CargoId> -> Freight.Yard)
      requires freight == marked({}) && ids <= freight.cargo.Keys
      requires MarksOneMore(marked, ids, c, expires, since, now)
      modifies this`freight
      ensures freight == marked(ids)
    {
      var todo := ids;
      ghost var done: set<Freight.CargoId> := {};
      while |todo| > 0
        invariant todo !! done && todo + done == ids && freight == marked(done)
        decreases |todo|
      {
        var id :| id in todo;
        todo := todo - {id};
        assert MarksNext(marked, ids, done, id, c, expires, since, now);
        MarkCargo(id, c, expires, since, now);
        done := done + {id};
      }
      assert done == ids;
    }

    method MarkOwned(c: ClientId, expires: int, since: int, now: int)
      modifies this`freight
      ensures freight == Freight.Marked(old(freight), Freight.Owned(old(freight), c), c, expires, since, now)
    {
      ghost var was := freight;
      MarkNone(was, c, expires, since, now);
      MarkingIsOneByOne(was, c, expires, since, now);
      MarkEach(Freight.Owned(freight, c), c, expires, since, now, ids => Freight.Marked(was, ids, c, expires, since, now));
    }

    method MarkClientCargoForRelease(c: ClientId, now: int)
      modifies this`freight
      ensures freight == Freight.MarkForRelease(old(freight), c, now)
    {
      MarkOwned(c, Millis(now + Freight.CLAIM_RELEASE_DELAY), Millis(now) * MILLISECOND, now);
    }
  }

  ghost function TimersOf(id: Freight.CargoId, c: ClientId, expires: int, since: int, now: int): (t: multiset<Freight.Armed>) {
    (if expires > 0 then multiset{Freight.Armed(Freight.Release(id, c, expires), Freight.Max(now, expires * MILLISECOND))}
     else multiset{})
    + multiset{Freight.Armed(Freight.AutoRight(id, since), now + Freight.AUTO_RIGHT_DELAY)}
    + multiset{Freight.Armed(Freight.Cleanup(id, since), since + Freight.CLEANUP_AGE)}
  }

  ghost function MarkedOne(y: Freight.Yard, id: Freight.CargoId, c: ClientId, expires: int, since: int, now: int)
    : (r: Freight.Yard)
    requires id in y.cargo
  {
    y.(
      cargo := y.cargo[id := y.cargo[id].(claimExpires := expires, updated := Millis(now))],
      untouched := y.untouched[id := since],
      touched := y.touched[id := since],
      timers := y.timers + TimersOf(id, c, expires, since, now))
  }

  lemma MarkNone(y: Freight.Yard, c: ClientId, expires: int, since: int, now: int)
    ensures Freight.Marked(y, {}, c, expires, since, now) == y
  {
    MarkNoCargo(y.cargo, expires, now);
    StampNone(y.untouched, since);
    StampNone(y.touched, since);
    NoTimers(c, expires, since, now);
  }

  lemma MarkNoCargo(cargo: map<Freight.CargoId, Freight.Cargo>, expires: int, now: int)
    ensures Freight.MarkedCargo(cargo, {}, expires, now) == cargo
  {
  }

  lemma StampNone(times: map<Freight.CargoId, int>, since: int)
    ensures Freight.Stamped(times, {}, since) == times
  {
    assert times.Keys + {} == times.Keys;
  }

  lemma NoTimers(c: ClientId, expires: int, since: int, now: int)
    ensures Freight.MarkedTimers({}, c, expires, since, now) == multiset{}
  {
    var none: set<Freight.CargoId> := {};
    assert (set id | id in none :: Freight.Armed(Freight.Release(id, c, expires), Freight.Max(now, expires * MILLISECOND))) == {};
    assert (set id | id in none :: Freight.Armed(Freight.AutoRight(id, since), now + Freight.AUTO_RIGHT_DELAY)) == {};
    assert (set id | id in none :: Freight.Armed(Freight.Cleanup(id, since), since + Freight.CLEANUP_AGE)) == {};
  }

  lemma TimersOneMore(ids: set<Freight.CargoId>, id: Freight.CargoId, c: ClientId, expires: int, since: int, now: int)
    requires id !in ids
    ensures Freight.ReleaseTimers(ids + {id}, c, expires, now)
      == Freight.ReleaseTimers(ids, c, expires, now) + multiset{Freight.Armed(Freight.Release(id, c, expires), now)}
    ensures Freight.AutoRightTimers(ids + {id}, since, now)
      == Freight.AutoRightTimers(ids, since, now) + multiset{Freight.Armed(Freight.AutoRight(id, since), now)}
    ensures Freight.CleanupTimers(ids + {id}, since, now)
      == Freight.CleanupTimers(ids, since, now) + multiset{Freight.Armed(Freight.Cleanup(id, since), now)}
  {
    var r := set x | x in ids :: Freight.Armed(Freight.Release(x, c, expires), now);
    assert (set x | x in ids + {id} :: Freight.Armed(Freight.Release(x, c, expires), now))
      == r + {Freight.Armed(Freight.Release(id, c, expires), now)};
    var a := set x | x in ids :: Freight.Armed(Freight.AutoRight(x, since), now);
    assert (set x | x in ids + {id} :: Freight.Armed(Freight.AutoRight(x, since), now))
      == a + {Freight.Armed(Freight.AutoRight(id, since), now)};
    var k := set x | x in ids :: Freight.Armed(Freight.Cleanup(x, since), now);
    assert (set x | x in ids + {id} :: Freight.Armed(Freight.Cleanup(x, since), now))
      == k + {Freight.Armed(Freight.Cleanup(id, since), now)};
  }

  lemma MarkOneMoreCargo(cargo: map<Freight.CargoId, Freight.Cargo>, ids: set<Freight.CargoId>, id: Freight.CargoId, expires: int, now: int)
    requires id in cargo && id !in ids
    ensures
      var part := Freight.MarkedCargo(cargo, ids, expires, now);
      && id in part
      && Freight.MarkedCargo(cargo, ids + {id}, expires, now)
        == part[id := part[id].(claimExpires := expires, updated := Millis(now))]
  {
  }

  lemma StampOneMore(times: map<Freight.CargoId, int>, ids: set<Freight.CargoId>, id: Freight.CargoId, since: int)
    ensures Freight.Stamped(times, ids + {id}, since) == Freight.Stamped(times, ids, since)[id := since]
  {
  }

  lemma MarkOneMoreTimers(ids: set<Freight.CargoId>, id: Freight.CargoId, c: ClientId, expires: int, since: int, now: int)
    requires id !in ids
    ensures Freight.MarkedTimers(ids + {id}, c, expires, since, now)
      == Freight.MarkedTimers(ids, c, expires, since, now) + TimersOf(id, c, expires, since, now)
  {
    TimersOneMore(ids, id, c, expires, since, Freight.Max(now, expires * MILLISECOND));
    TimersOneMore(ids, id, c, expires, since, now + Freight.AUTO_RIGHT_DELAY);
    TimersOneMore(ids, id, c, expires, since, since + Freight.CLEANUP_AGE);
  }

  /** Marking one cargo more is the step that the loop takes. */
  ghost predicate MarksNext(
    marked: set<Freight.CargoId> -> Freight.Yard, ids: set<Freight.CargoId>, done: set<Freight.CargoId>, id: Freight.CargoId,
    c: ClientId, expires: int, since: int, now: int)
  {
    done <= ids && id in ids && id !in done ==>
      id in marked(done).cargo && marked(done + {id}) == MarkedOne(marked(done), id, c, expires, since, now)
  }

  ghost predicate MarksOneMore(
    marked: set<Freight.CargoId> -> Freight.Yard, ids: set<Freight.CargoId>, c: ClientId, expires: int, since: int, now: int)
  {
    forall done, id :: MarksNext(marked, ids, done, id, c, expires, since, now)
  }

  lemma MarkingIsOneByOne(y: Freight.Yard, c: ClientId, expires: int, since: int, now: int)
    ensures MarksOneMore(
      ids => Freight.Marked(y, ids, c, expires, since, now), Freight.Owned(y, c), c, expires, since, now)
  {
    var marked := ids => Freight.Marked(y, ids, c, expires, since, now);
    forall done, id ensures MarksNext(marked, Freight.Owned(y, c), done, id, c, expires, since, now) {
      if id in Freight.Owned(y, c) && id !in done {
        MarkOneMore(y, done, id, c, expires, since, now);
      }
    }
  }

  lemma MarkOneMore(
    y: Freight.Yard, ids: set<Freight.CargoId>, id: Freight.CargoId, c: ClientId, expires: int, since: int, now: int)
    requires id in y.cargo && id !in ids
    ensures id in Freight.Marked(y, ids, c, expires, since, now).cargo
    ensures Freight.Marked(y, ids + {id}, c, expires, since, now)
      == MarkedOne(Freight.Marked(y, ids, c, expires, since, now), id, c, expires, since, now)
  {
    MarkOneMoreCargo(y.cargo, ids, id, expires, now);
    StampOneMore(y.untouched, ids, id, since);
    StampOneMore(y.touched, ids, id, since);
    MarkOneMoreTimers(ids, id, c, expires, since, now);
  }
}
