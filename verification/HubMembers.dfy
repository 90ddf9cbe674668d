/**
 * Who is connected, where they are, and how they may enter a controlled interior
 * (internal/realtime/hub.go, internal/realtime/transitions.go).
 */
module HubMembers {
  import opened Common
  import opened TravelAccess
  import opened HubTypes

  /** `character` is present for a persistent client; `initialWorld` is where it was saved. */
  datatype Client = Client(character: Option<int>, initialWorld: string)

  datatype Grant = Grant(request: string, authorization: string, rule: Rule, expires: int)

  datatype Arrival = Arrival(source: string, destination: string)

  /**
   * `issued` holds every connection id handed out so far. `committing` holds the connections between
   * the two locked sections of a transition commit.
   */
  datatype Members = Members(
    clients: map<ClientId, Client>, issued: set<ClientId>, active: map<int, ClientId>,
    presences: Presences, rooms: map<string, set<ClientId>>,
    departed: map<ClientId, string>, grants: map<ClientId, Grant>, arrivals: map<ClientId, Arrival>,
    announced: set<ClientId>, committing: set<ClientId>)

  const NOBODY := Members(map[], {}, map[], map[], map[], map[], map[], map[], {}, {})

  function Lookup<K, V>(m: map<K, V>, key: K): (r: Option<V>) {
    if key in m then Some(m[key]) else None
  }

  // ---------- Connecting ----------

  /** The live connection of a character, which a new one replaces. */
  function Replaced(m: Members, client: Client): (r: Option<ClientId>) {
    if client.character.None? || client.character.value !in m.active then None
    else
      var current := m.active[client.character.value];
      if current in m.clients then Some(current) else None
  }

  datatype Admission = Admission(members: Members, accepted: bool)

  function Register(m: Members, maxClients: int, id: ClientId, client: Client): (r: Admission) {
    var replaced := Replaced(m, client);
    var swept := if client.character.Some? && replaced.None? then m.(active := m.active - {client.character.value}) else m;
    if |m.clients| >= maxClients && replaced.None? then Admission(swept, false)
    else
      Admission(
        swept.(
          clients := m.clients[id := client],
          issued := m.issued + {id},
          active := if client.character.Some? then swept.active[client.character.value := id] else swept.active),
        true)
  }

  // ---------- Rooms ----------

  function RoomsWithout(rooms: map<string, set<ClientId>>, c: ClientId, world: string): (r: map<string, set<ClientId>>) {
    if world !in rooms then rooms
    else if rooms[world] - {c} == {} then rooms - {world}
    else rooms[world := rooms[world] - {c}]
  }

  function RoomsWith(rooms: map<string, set<ClientId>>, c: ClientId, world: string): (r: map<string, set<ClientId>>) {
    rooms[world := if world in rooms then rooms[world] + {c} else {c}]
  }

  function Unregister(m: Members, c: ClientId): (r: Members) {
    if c !in m.clients then m
    else
      var character := m.clients[c].character;
      var ended := character.Some? && character.value in m.active && m.active[character.value] == c;
      m.(
        clients := m.clients - {c},
        active := if ended then m.active - {character.value} else m.active,
        departed := m.departed - {c}, grants := m.grants - {c}, arrivals := m.arrivals - {c},
        presences := m.presences - {c},
        rooms := if c in m.presences then RoomsWithout(m.rooms, c, m.presences[c].world) else m.rooms)
  }

  /** Leaving keeps a pending arrival only on behalf of a commit; false if the client was nowhere. */
  function Leave(m: Members, c: ClientId, preserveArrival: bool): (r: Admission) {
    var kept := if preserveArrival then m else m.(grants := m.grants - {c}, arrivals := m.arrivals - {c});
    if c !in m.presences then Admission(kept, false)
    else
      var world := m.presences[c].world;
      Admission(
        kept.(presences := m.presences - {c}, departed := m.departed[c := world], rooms := RoomsWithout(m.rooms, c, world)),
        true)
  }

  // ---------- Presence ----------

  /** A presence is heard if it is well formed, from a connected client, and not older than the last. */
  predicate Heard(config: Config, m: Members, c: ClientId, message: PresenceMessage) {
    && message.wellFormed && message.world in config.worlds
    && c in m.clients
    && (c in m.presences ==>
          var previous := m.presences[c];
          && message.sequence > previous.sequence
          && message.animationRevision >= previous.animationRevision
          && (message.animationRevision != previous.animationRevision || message.animation.None?
          || message.animation == previous.animation))
    && (message.vehicle.Some? ==> config.ValidForklift(message.vehicle.value))
  }

  /** The last boundary of authority: may this presence be in its world, and what does asking change? */
  function AllowDestination(config: Config, m: Members, c: ClientId, world: string): (r: Admission) {
    if c in m.arrivals && world == m.arrivals[c].destination then
      Admission(m.(arrivals := m.arrivals - {c}, departed := m.departed - {c}), true)
    else if c in m.arrivals && world == m.arrivals[c].source then Admission(m, false)
    else
      var dropped := m.(arrivals := m.arrivals - {c});
      var settled := dropped.(departed := m.departed - {c});
      var last := if c in m.presences then Some(m.presences[c].world) else Lookup(m.departed, c);
      if world !in config.access.controlled then
        Admission(
          if c in m.grants && world != m.grants[c].rule.source then settled.(grants := m.grants - {c}) else settled,
          true)
      else if last == Some(world) then Admission(settled, true)
      else if c !in m.announced && c in m.clients && m.clients[c].initialWorld == world then Admission(settled, true)
      else Admission(dropped, false)
  }

  /** Stores an allowed presence and moves the client between rooms. */
  function Place(m: Members, c: ClientId, presence: Presence): (r: Members) {
    var stays := c in m.presences && m.presences[c].world == presence.world;
    var left := if c in m.presences && !stays then RoomsWithout(m.rooms, c, m.presences[c].world) else m.rooms;
    m.(
      announced := m.announced + {c},
      presences := m.presences[c := presence],
      rooms := if stays then m.rooms else RoomsWith(left, c, presence.world))
  }

  // ---------- Doors ----------

  datatype TransitionRequest = TransitionRequest(
    requestId: string, transition: string, source: string, door: int, destination: string)

  datatype TransitionReason =
    | Authorized | Committed | InvalidRequest | UnknownTransition | SourceMismatch | DoorMismatch | DestinationMismatch
    | NoPresence | NotOnFoot | TooFar | Closed | Expired | InvalidGrant | ConnectionClosed

  predicate ValidRequestId(id: string) {
    0 < |id| <= 128 && id[0] !in WHITE_SPACE && id[|id| - 1] !in WHITE_SPACE
  }

  datatype Decision = Decision(members: Members, reason: TransitionReason)

  /** Why a request cannot be granted, in the order it is checked. */
  function Refusal(config: Config, m: Members, c: ClientId, q: TransitionRequest, gameTime: int): (r: Option<TransitionReason>) {
    var rule := Lookup(config.access.rules, q.transition);
    if !ValidRequestId(q.requestId) then Some(InvalidRequest)
    else if rule.None? then Some(UnknownTransition)
    else if q.source != rule.value.source then Some(SourceMismatch)
    else if q.door != rule.value.door then Some(DoorMismatch)
    else if q.destination != rule.value.destination then Some(DestinationMismatch)
    else if c !in m.presences then Some(NoPresence)
    else if m.presences[c].world != rule.value.source then Some(SourceMismatch)
    else if m.presences[c].vehicle.Some? then Some(NotOnFoot)
    else if !rule.value.WithinRange(m.presences[c].at) then Some(TooFar)
    else if !config.access.IsRuleOpen(rule.value, gameTime) then Some(Closed)
    else None
  }

  /** `authorization` is a fresh random name; a new request always drops an older grant. */
  function RequestTransition(
    config: Config, m: Members, c: ClientId, q: TransitionRequest, gameTime: int, now: int, authorization: string)
    : (r: Decision)
    requires c in m.clients
  {
    var dropped := m.(grants := m.grants - {c});
    match Refusal(config, m, c, q, gameTime)
    case Some(reason) => Decision(dropped, reason)
    case None =>
      var rule := config.access.rules[q.transition];
      var grant := Grant(q.requestId, authorization, rule, now + rule.lifetime * MILLISECOND);
      Decision(m.(grants := m.grants[c := grant]), Authorized)
  }

  /** The first locked section of a commit: it uses the grant up and reserves the arrival. */
  function BeginCommit(m: Members, c: ClientId, requestId: string, authorization: string, now: int): (r: Decision)
    requires c in m.clients
  {
    if c !in m.grants || m.grants[c].request != requestId || m.grants[c].authorization != authorization then
      Decision(m, InvalidGrant)
    else
      var rule := m.grants[c].rule;
      var used := m.(grants := m.grants - {c});
      if now >= m.grants[c].expires then Decision(used, Expired)
      else if c !in m.presences || m.presences[c].world != rule.source then Decision(used, SourceMismatch)
      else if m.presences[c].vehicle.Some? then Decision(used, NotOnFoot)
      else if !rule.WithinRange(m.presences[c].at) then Decision(used, TooFar)
      else
        Decision(
          used.(arrivals := m.arrivals[c := Arrival(rule.source, rule.destination)], committing := m.committing + {c}),
          Authorized)
  }

  /** The second section leaves the source world; the client may have been disconnected in between. */
  function EndCommit(m: Members, c: ClientId): (r: Decision) {
    var left := Leave(m.(committing := m.committing - {c}), c, true);
    if left.accepted then Decision(left.members, Committed)
    else Decision(left.members.(arrivals := left.members.arrivals - {c}), ConnectionClosed)
  }

  // ---------- What every step keeps ----------

  /** Rooms are the inverse index of presences, and no empty room is kept. */
  ghost predicate RoomsIndexPresences(presences: Presences, rooms: map<string, set<ClientId>>) {
    && (forall c :: c in presences ==> presences[c].world in rooms && c in rooms[presences[c].world])
    && (forall w, c :: w in rooms && c in rooms[w] ==> c in presences && presences[c].world == w)
    && (forall w :: w in rooms ==> rooms[w] != {})
  }

  /** A character's active connection is live, and of that character. */
  ghost predicate ActiveAreLive(clients: map<ClientId, Client>, active: map<int, ClientId>) {
    forall ch :: ch in active ==> active[ch] in clients && clients[active[ch]].character == Some(ch)
  }

  /** Presences and everything kept for a connection belong to live ones; ids are never handed out twice. */
  ghost predicate KeptForClients(m: Members) {
    && m.clients.Keys <= m.issued && m.announced <= m.issued && m.committing <= m.issued
    && m.presences.Keys <= m.clients.Keys && m.presences.Keys <= m.announced
    && m.departed.Keys <= m.clients.Keys && m.grants.Keys <= m.clients.Keys && m.arrivals.Keys <= m.clients.Keys
  }

  ghost predicate Registered(m: Members) {
    KeptForClients(m) && ActiveAreLive(m.clients, m.active)
  }

  /** A live grant's holder is in the rule's source world. */
  ghost predicate GrantsHeldAtTheDoor(config: Config, presences: Presences, grants: map<ClientId, Grant>) {
    forall c :: c in grants ==>
      && c in presences && presences[c].world == grants[c].rule.source
      && KnownRule(config, grants[c].rule)
  }

  predicate KnownRule(config: Config, rule: Rule) {
    rule.transition in config.access.rules && config.access.rules[rule.transition] == rule
  }

  /** A reserved arrival's holder has left its source, or is about to while the commit is under way. */
  ghost predicate Pending(m: Members, c: ClientId)
    requires c in m.arrivals
  {
    && c !in m.grants
    && (if c in m.committing then c in m.presences && m.presences[c].world == m.arrivals[c].source
        else c !in m.presences && c in m.departed && m.departed[c] == m.arrivals[c].source)
  }

  ghost predicate ArrivalsPending(m: Members) {
    && (forall c :: c in m.arrivals ==> Pending(m, c))
    && (forall c :: c in m.committing && c in m.clients ==> c in m.arrivals)
  }

  /** The connections whose character has not been opened elsewhere since. */
  function Current(m: Members): (s: set<ClientId>) {
    set c | c in m.clients &&
      (m.clients[c].character.None? || Lookup(m.active, m.clients[c].character.value) == Some(c))
  }

  ghost predicate Indexed(m: Members) {
    RoomsIndexPresences(m.presences, m.rooms) && Registered(m)
  }

  ghost predicate Guarded(config: Config, m: Members) {
    GrantsHeldAtTheDoor(config, m.presences, m.grants) && ArrivalsPending(m)
  }

  ghost predicate Coupled(config: Config, m: Members) {
    Indexed(m) && Guarded(config, m) && |Current(m)| <= config.maxClients
  }
}
