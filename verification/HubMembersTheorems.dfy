/** Every step of the hub's membership keeps its indexes and its doors consistent. */
module HubMembersTheorems {
  import opened Common
  import opened TravelAccess
  import opened HubTypes
  import opened HubMembers

  // ---------- Rooms ----------

  lemma LeavingKeepsRooms(presences: Presences, rooms: map<string, set<ClientId>>, c: ClientId)
    requires RoomsIndexPresences(presences, rooms) && c in presences
    ensures RoomsIndexPresences(presences - {c}, RoomsWithout(rooms, c, presences[c].world))
  {
    var world := presences[c].world;
    var left := RoomsWithout(rooms, c, world);
    forall other | other in presences && other != c
      ensures presences[other].world in left && other in left[presences[other].world]
    {
      assert other in rooms[presences[other].world];
      if presences[other].world == world { assert other in rooms[world] - {c}; }
    }
  }

  lemma EnteringKeepsRooms(presences: Presences, rooms: map<string, set<ClientId>>, c: ClientId, presence: Presence)
    requires RoomsIndexPresences(presences, rooms) && c !in presences
    ensures RoomsIndexPresences(presences[c := presence], RoomsWith(rooms, c, presence.world))
  {
  }

  lemma PlaceKeepsRooms(m: Members, c: ClientId, presence: Presence)
    requires RoomsIndexPresences(m.presences, m.rooms)
    ensures RoomsIndexPresences(Place(m, c, presence).presences, Place(m, c, presence).rooms)
  {
    if c !in m.presences {
      EnteringKeepsRooms(m.presences, m.rooms, c, presence);
    } else if m.presences[c].world != presence.world {
      LeavingKeepsRooms(m.presences, m.rooms, c);
      EnteringKeepsRooms(m.presences - {c}, RoomsWithout(m.rooms, c, m.presences[c].world), c, presence);
      assert (m.presences - {c})[c := presence] == m.presences[c := presence];
    }
  }

  // ---------- Connections ----------

  /** What connecting does when it is accepted; there is never a stale entry to sweep. */
  function Connected(m: Members, id: ClientId, client: Client): (n: Members) {
    m.(
      clients := m.clients[id := client], issued := m.issued + {id},
      active := if client.character.Some? then m.active[client.character.value := id] else m.active)
  }

  lemma NothingSwept(m: Members, client: Client)
    requires ActiveAreLive(m.clients, m.active) && Replaced(m, client).None?
    ensures client.character.Some? ==> client.character.value !in m.active && m.active - {client.character.value} == m.active
  {
    if client.character.Some? {
      var ch := client.character.value;
      if ch in m.active { assert false; }
      assert m.active - {ch} == m.active;
    }
  }

  lemma RegisterShape(m: Members, maxClients: int, id: ClientId, client: Client)
    requires ActiveAreLive(m.clients, m.active)
    ensures
      var r := Register(m, maxClients, id, client);
      && r.accepted == (|m.clients| < maxClients || Replaced(m, client).Some?)
      && r.members == if r.accepted then Connected(m, id, client) else m
  {
    if Replaced(m, client).None? { NothingSwept(m, client); }
  }

  lemma ReplacedIsCurrent(m: Members, client: Client)
    requires ActiveAreLive(m.clients, m.active) && Replaced(m, client).Some?
    ensures Replaced(m, client).value in Current(m)
    ensures m.clients[Replaced(m, client).value].character == client.character
  {
    var character := client.character.value;
    assert m.clients[m.active[character]].character == Some(character);
  }

  lemma {:induction false} SubsetIsSmaller<T>(a: set<T>, b: set<T>)
    requires a <= b
    ensures |a| <= |b|
  {
    if a != {} {
      var x :| x in a;
      SubsetIsSmaller(a - {x}, b - {x});
    }
  }

  lemma ConnectedCurrent(m: Members, id: ClientId, client: Client)
    requires id !in m.clients && ActiveAreLive(m.clients, m.active)
    ensures Current(Connected(m, id, client)) <= Current(m) + {id}
    ensures Replaced(m, client).Some? ==> Replaced(m, client).value !in Current(Connected(m, id, client))
  {
    var n := Connected(m, id, client);
    forall c | c in Current(n) ensures c in Current(m) + {id} {
      if c != id && m.clients[c].character.Some? {
        assert Lookup(n.active, m.clients[c].character.value) == Some(c);
      }
    }
    if Replaced(m, client).Some? {
      ReplacedIsCurrent(m, client);
      var replaced := Replaced(m, client).value;
      assert Lookup(n.active, client.character.value) == Some(id);
    }
  }

  /** The newcomer either takes the place of the connection it replaces, or there was room. */
  lemma RegisterKeepsCapacity(config: Config, m: Members, id: ClientId, client: Client)
    requires Registered(m) && id !in m.issued && |Current(m)| <= config.maxClients
    ensures |Current(Register(m, config.maxClients, id, client).members)| <= config.maxClients
  {
    RegisterShape(m, config.maxClients, id, client);
    var before, after := Current(m), Current(Connected(m, id, client));
    assert id !in m.clients;
    ConnectedCurrent(m, id, client);
    if Replaced(m, client).Some? {
      ReplacedIsCurrent(m, client);
      var replaced := Replaced(m, client).value;
      TakingAPlace(before, after, replaced, id);
    } else if |m.clients| < config.maxClients {
      SubsetIsSmaller(before, m.clients.Keys);
      assert |m.clients.Keys| == |m.clients|;
      SubsetIsSmaller(after, before + {id});
    }
  }

  lemma TakingAPlace(before: set<ClientId>, after: set<ClientId>, replaced: ClientId, id: ClientId)
    requires replaced in before && replaced !in after && after <= before + {id}
    ensures |after| <= |before|
  {
    SubsetIsSmaller(after, before - {replaced} + {id});
  }

  lemma ConnectingKeepsIndex(m: Members, id: ClientId, client: Client)
    requires Indexed(m) && id !in m.issued
    ensures Indexed(Connected(m, id, client))
  {
    ConnectingKeepsActive(m.clients, m.active, id, client);
  }

  lemma ConnectingKeepsActive(clients: map<ClientId, Client>, active: map<int, ClientId>, id: ClientId, client: Client)
    requires ActiveAreLive(clients, active) && id !in clients
    ensures ActiveAreLive(
      clients[id := client], if client.character.Some? then active[client.character.value := id] else active)
  {
  }

  lemma ConnectingKeepsDoors(config: Config, m: Members, id: ClientId, client: Client)
    requires Guarded(config, m) && id !in m.committing
    ensures Guarded(config, Connected(m, id, client))
  {
    var n := Connected(m, id, client);
    forall c | c in n.arrivals ensures Pending(n, c) {
      assert Pending(m, c);
    }
  }

  lemma RegisterKeeps(config: Config, m: Members, id: ClientId, client: Client)
    requires Coupled(config, m) && id !in m.issued
    ensures Coupled(config, Register(m, config.maxClients, id, client).members)
  {
    RegisterShape(m, config.maxClients, id, client);
    RegisterKeepsCapacity(config, m, id, client);
    ConnectingKeepsIndex(m, id, client);
    ConnectingKeepsDoors(config, m, id, client);
  }

  lemma DroppingKeepsActive(m: Members, c: ClientId)
    requires ActiveAreLive(m.clients, m.active)
    ensures ActiveAreLive(Unregister(m, c).clients, Unregister(m, c).active)
    ensures Current(Unregister(m, c)) <= Current(m)
  {
    if c in m.clients {
      var character := m.clients[c].character;
      forall ch | ch in m.active && m.active[ch] == c ensures character == Some(ch) {
      }
      var n := Unregister(m, c);
      forall d | d in Current(n) ensures d in Current(m) {
        if m.clients[d].character.Some? {
          assert Lookup(n.active, m.clients[d].character.value) == Some(d);
        }
      }
    }
  }

  lemma UnregisterKeepsIndex(m: Members, c: ClientId)
    requires Indexed(m)
    ensures Indexed(Unregister(m, c))
  {
    DroppingKeepsActive(m, c);
    if c in m.presences {
      LeavingKeepsRooms(m.presences, m.rooms, c);
    } else {
      assert m.presences - {c} == m.presences;
    }
  }

  lemma UnregisterKeepsDoors(config: Config, m: Members, c: ClientId)
    requires Guarded(config, m)
    ensures Guarded(config, Unregister(m, c))
  {
    var n := Unregister(m, c);
    forall d | d in n.arrivals ensures Pending(n, d) {
      assert Pending(m, d);
    }
  }

  lemma UnregisterKeeps(config: Config, m: Members, c: ClientId)
    requires Coupled(config, m)
    ensures Coupled(config, Unregister(m, c))
  {
    UnregisterKeepsIndex(m, c);
    UnregisterKeepsDoors(config, m, c);
    DroppingKeepsActive(m, c);
    SubsetIsSmaller(Current(Unregister(m, c)), Current(m));
  }

  lemma CurrentIsOfConnections(m: Members, n: Members)
    requires n.clients == m.clients && n.active == m.active
    ensures Current(n) == Current(m)
  {
  }

  // ---------- Moving about ----------

  lemma LeaveKeepsIndex(m: Members, c: ClientId, preserveArrival: bool)
    requires Indexed(m)
    ensures Indexed(Leave(m, c, preserveArrival).members)
  {
    if c in m.presences {
      LeavingKeepsRooms(m.presences, m.rooms, c);
    }
  }

  lemma LeaveKeepsDoors(config: Config, m: Members, c: ClientId)
    requires Guarded(config, m) && c !in m.committing
    ensures Guarded(config, Leave(m, c, false).members)
  {
    var n := Leave(m, c, false).members;
    forall d | d in n.arrivals ensures Pending(n, d) {
      assert Pending(m, d);
    }
  }

  lemma LeaveKeeps(config: Config, m: Members, c: ClientId)
    requires Coupled(config, m) && c !in m.committing
    ensures Coupled(config, Leave(m, c, false).members)
  {
    CurrentIsOfConnections(m, Leave(m, c, false).members);
    LeaveKeepsIndex(m, c, false);
    LeaveKeepsDoors(config, m, c);
  }

  /** What asking for a destination can change. */
  lemma AllowShape(config: Config, m: Members, c: ClientId, world: string)
    ensures
      var n := AllowDestination(config, m, c, world).members;
      && n == m.(arrivals := n.arrivals, departed := n.departed, grants := n.grants)
      && n.arrivals in {m.arrivals, m.arrivals - {c}}
      && n.departed in {m.departed, m.departed - {c}}
      && n.grants in {m.grants, m.grants - {c}}
  {
  }

  lemma AllowChangesLittle(config: Config, m: Members, c: ClientId, world: string)
    requires Indexed(m)
    ensures
      var n := AllowDestination(config, m, c, world).members;
      && Indexed(n)
      && n.presences == m.presences && n.announced == m.announced && n.clients == m.clients && n.active == m.active
      && n.committing == m.committing && n.issued == m.issued && n.rooms == m.rooms
  {
    AllowShape(config, m, c, world);
  }

  /** The arrival is gone once the presence is allowed, and a grant that stays is for this very world. */
  lemma AllowSettles(config: Config, m: Members, c: ClientId, world: string)
    requires GrantsHeldAtTheDoor(config, m.presences, m.grants) && ArrivalsPending(m) && m.presences.Keys <= m.announced
    ensures
      var r := AllowDestination(config, m, c, world);
      r.accepted ==>
        c !in r.members.arrivals && (c in r.members.grants ==> r.members.grants[c].rule.source == world)
  {
    if c in m.grants { assert c in m.presences; }
    if c in m.arrivals { assert Pending(m, c); }
  }

  /** The departed world is forgotten only with the arrival. */
  lemma AllowForgetsTogether(config: Config, m: Members, c: ClientId, world: string)
    ensures
      var n := AllowDestination(config, m, c, world).members;
      c in n.arrivals ==> n.departed == m.departed
  {
  }

  lemma AllowKeepsDoors(config: Config, m: Members, c: ClientId, world: string)
    requires Guarded(config, m) && c !in m.committing
    ensures Guarded(config, AllowDestination(config, m, c, world).members)
  {
    var n := AllowDestination(config, m, c, world).members;
    AllowShape(config, m, c, world);
    AllowForgetsTogether(config, m, c, world);
    forall d | d in n.arrivals ensures Pending(n, d) {
      assert Pending(m, d);
    }
  }

  lemma AllowKeeps(config: Config, m: Members, c: ClientId, world: string)
    requires Coupled(config, m) && c in m.clients && c !in m.committing
    ensures Coupled(config, AllowDestination(config, m, c, world).members)
  {
    AllowKeepsDoors(config, m, c, world);
    AllowChangesLittle(config, m, c, world);
    CurrentIsOfConnections(m, AllowDestination(config, m, c, world).members);
  }

  lemma PlaceKeepsDoors(config: Config, m: Members, c: ClientId, presence: Presence)
    requires Guarded(config, m) && c !in m.arrivals && (c in m.grants ==> m.grants[c].rule.source == presence.world)
    ensures Guarded(config, Place(m, c, presence))
  {
    var n := Place(m, c, presence);
    forall d | d in n.arrivals ensures Pending(n, d) {
      assert Pending(m, d);
    }
  }

  lemma PlaceKeeps(config: Config, m: Members, c: ClientId, presence: Presence)
    requires Coupled(config, m) && c in m.clients && c !in m.committing
    requires c !in m.arrivals && (c in m.grants ==> m.grants[c].rule.source == presence.world)
    ensures Coupled(config, Place(m, c, presence))
  {
    CurrentIsOfConnections(m, Place(m, c, presence));
    PlaceKeepsRooms(m, c, presence);
    PlaceKeepsDoors(config, m, c, presence);
  }

  // ---------- Doors ----------

  lemma RequestShape(
    config: Config, m: Members, c: ClientId, q: TransitionRequest, gameTime: int, now: int, authorization: string)
    requires c in m.clients && config.Valid()
    ensures
      var d := RequestTransition(config, m, c, q, gameTime, now, authorization);
      && d.members == m.(grants := d.members.grants)
      && (d.reason != Authorized ==> d.members.grants == m.grants - {c})
      && (d.reason == Authorized ==>
            && d.members.grants.Keys == m.grants.Keys + {c}
            && (forall e :: e in m.grants && e != c ==> d.members.grants[e] == m.grants[e])
            && c in m.presences && m.presences[c].world == d.members.grants[c].rule.source
            && KnownRule(config, d.members.grants[c].rule))
  {
  }

  lemma RequestKeeps(
    config: Config, m: Members, c: ClientId, q: TransitionRequest, gameTime: int, now: int, authorization: string)
    requires config.Valid() && Coupled(config, m) && c in m.clients && c !in m.committing
    ensures Coupled(config, RequestTransition(config, m, c, q, gameTime, now, authorization).members)
  {
    var d := RequestTransition(config, m, c, q, gameTime, now, authorization);
    CurrentIsOfConnections(m, d.members);
    RequestShape(config, m, c, q, gameTime, now, authorization);
    GrantingKeepsDoors(config, m, c, d.members);
  }

  lemma GrantingKeepsDoors(config: Config, m: Members, c: ClientId, n: Members)
    requires Guarded(config, m) && c !in m.committing && n == m.(grants := n.grants)
    requires forall e :: e in n.grants && e != c ==> e in m.grants && n.grants[e] == m.grants[e]
    requires c in n.grants ==>
      c in m.presences && m.presences[c].world == n.grants[c].rule.source && KnownRule(config, n.grants[c].rule)
    ensures Guarded(config, n)
  {
    forall d | d in n.arrivals ensures Pending(n, d) {
      assert Pending(m, d);
    }
  }

  lemma BeginShape(m: Members, c: ClientId, requestId: string, authorization: string, now: int)
    requires c in m.clients
    ensures
      var d := BeginCommit(m, c, requestId, authorization, now);
      && d.members == m.(grants := d.members.grants, arrivals := d.members.arrivals, committing := d.members.committing)
      && d.members.grants in {m.grants, m.grants - {c}}
      && (d.reason != Authorized ==> d.members.arrivals == m.arrivals && d.members.committing == m.committing)
      && (d.reason == Authorized ==>
            && c in m.presences && c !in d.members.grants
            && d.members.committing == m.committing + {c}
            && d.members.arrivals == m.arrivals[c := d.members.arrivals[c]]
            && d.members.arrivals[c].source == m.presences[c].world)
  {
  }

  lemma BeginCommitKeepsDoors(config: Config, m: Members, c: ClientId, requestId: string, authorization: string, now: int)
    requires Guarded(config, m) && c in m.clients && c !in m.committing
    ensures Guarded(config, BeginCommit(m, c, requestId, authorization, now).members)
  {
    var n := BeginCommit(m, c, requestId, authorization, now).members;
    BeginShape(m, c, requestId, authorization, now);
    forall d | d in n.arrivals ensures Pending(n, d) {
      if d != c || n.arrivals == m.arrivals { assert Pending(m, d); }
    }
  }

  lemma BeginCommitKeeps(config: Config, m: Members, c: ClientId, requestId: string, authorization: string, now: int)
    requires Coupled(config, m) && c in m.clients && c !in m.committing
    ensures Coupled(config, BeginCommit(m, c, requestId, authorization, now).members)
  {
    BeginCommitKeepsDoors(config, m, c, requestId, authorization, now);
    BeginShape(m, c, requestId, authorization, now);
    CurrentIsOfConnections(m, BeginCommit(m, c, requestId, authorization, now).members);
  }

  lemma EndCommitKeepsDoors(config: Config, m: Members, c: ClientId)
    requires Indexed(m) && Guarded(config, m) && c in m.committing
    ensures Guarded(config, EndCommit(m, c).members)
    ensures EndCommit(m, c).reason == Committed <==> c in m.clients
  {
    var n := EndCommit(m, c).members;
    if c in m.clients { assert Pending(m, c); }
    forall d | d in n.arrivals ensures Pending(n, d) {
      assert Pending(m, d);
    }
  }

  lemma EndCommitKeepsIndex(m: Members, c: ClientId)
    requires Indexed(m)
    ensures Indexed(EndCommit(m, c).members)
  {
    LeaveKeepsIndex(m.(committing := m.committing - {c}), c, true);
  }

  lemma EndCommitKeeps(config: Config, m: Members, c: ClientId)
    requires Coupled(config, m) && c in m.committing
    ensures Coupled(config, EndCommit(m, c).members)
    ensures EndCommit(m, c).reason == Committed <==> c in m.clients
  {
    CurrentIsOfConnections(m, EndCommit(m, c).members);
    EndCommitKeepsIndex(m, c);
    EndCommitKeepsDoors(config, m, c);
  }
}
