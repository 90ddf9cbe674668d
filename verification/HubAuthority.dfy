/**
 * Authority over controlled interiors: however a run interleaves, a connection gets into one only by
 * a committed transition, or because it was saved there (internal/realtime/transitions.go).
 */
module HubAuthority {
  import opened Common
  import opened TravelAccess
  import opened HubTypes
  import opened HubMembers
  import opened HubState
  import opened HubTheorems

  function LastWorld(m: Members, c: ClientId): (w: Option<string>) {
    if c in m.presences then Some(m.presences[c].world) else Lookup(m.departed, c)
  }

  /** The step moves `c` into the controlled interior `w` from somewhere else. */
  predicate Enters(config: Config, h: Hub, op: Op, c: ClientId, w: string) {
    && op.Report? && op.c == c && op.message.world == w && w in config.access.controlled
    && HandlePresence(config, h, c, op.message, op.now).accepted
    && LastWorld(h.members, c) != Some(w)
  }

  /** The step completes a transition of `c` to `w`. */
  predicate Commits(h: Hub, op: Op, c: ClientId, w: string) {
    && op.End? && op.c == c && c in h.members.arrivals && h.members.arrivals[c].destination == w
    && EndCommit(h.members, c).reason == Committed
  }

  /** The step connects `c` for a character that was saved in `w`. */
  predicate Restores(config: Config, h: Hub, op: Op, c: ClientId, w: string) {
    && op.Connect? && op.id == c && op.client.initialWorld == w
    && Register(h.members, config.maxClients, c, op.client).accepted
  }

  predicate HasArrival(m: Members, c: ClientId, w: string) {
    c in m.arrivals && c !in m.committing && m.arrivals[c].destination == w
  }

  predicate MayRestore(m: Members, c: ClientId, w: string) {
    c !in m.announced && c in m.clients && m.clients[c].initialWorld == w
  }

  function One(b: bool): (n: nat) {
    if b then 1 else 0
  }

  /** How many entries to `w` the connection has in hand. */
  function Credit(m: Members, c: ClientId, w: string): (n: nat) {
    One(HasArrival(m, c, w)) + One(MayRestore(m, c, w))
  }

  /** Entering a controlled interior uses up the arrival, or the first presence at the saved world. */
  lemma EntryUsesAnArrivalOrTheSavedWorld(config: Config, h: Hub, op: Op, c: ClientId, w: string)
    requires config.Valid() && Consistent(config, h) && Enabled(h, op) && Enters(config, h, op, c, w)
    ensures
      var next := Step(config, h, op).members;
      || (HasArrival(h.members, c, w) && c !in next.arrivals)
      || (MayRestore(h.members, c, w) && c in next.announced)
    ensures Credit(Step(config, h, op).members, c, w) < Credit(h.members, c, w)
  {
    var asked := AllowDestination(config, h.members, c, w);
    assert Step(config, h, op).members == Place(asked.members, c, StoredPresence(h, c, op.message));
  }

  lemma PresenceAddsNoCredit(config: Config, m: Members, d: ClientId, presence: Presence, c: ClientId, w: string)
    ensures
      var asked := AllowDestination(config, m, d, presence.world).members;
      && Credit(asked, c, w) <= Credit(m, c, w)
      && Credit(Place(asked, d, presence), c, w) <= Credit(asked, c, w)
  {
    AllowAddsNoCredit(config, m, d, presence.world, c, w);
    PlaceAddsNoCredit(AllowDestination(config, m, d, presence.world).members, d, presence, c, w);
  }

  lemma AllowAddsNoCredit(config: Config, m: Members, d: ClientId, world: string, c: ClientId, w: string)
    ensures Credit(AllowDestination(config, m, d, world).members, c, w) <= Credit(m, c, w)
  {
  }

  lemma PlaceAddsNoCredit(m: Members, d: ClientId, presence: Presence, c: ClientId, w: string)
    ensures Credit(Place(m, d, presence), c, w) <= Credit(m, c, w)
  {
  }

  lemma ReportUsesCredit(config: Config, h: Hub, op: Op, c: ClientId, w: string)
    requires config.Valid() && Consistent(config, h) && Enabled(h, op) && op.Report?
    ensures Credit(Step(config, h, op).members, c, w) + One(Enters(config, h, op, c, w)) <= Credit(h.members, c, w)
  {
    if Enters(config, h, op, c, w) {
      EntryUsesAnArrivalOrTheSavedWorld(config, h, op, c, w);
    } else {
      PresenceAddsNoCredit(config, h.members, op.c, StoredPresence(h, op.c, op.message), c, w);
    }
  }

  lemma AskingAddsNoCredit(
    config: Config, m: Members, d: ClientId, q: TransitionRequest, gameTime: int, now: int, authorization: string,
    c: ClientId, w: string)
    requires d in m.clients
    ensures Credit(RequestTransition(config, m, d, q, gameTime, now, authorization).members, c, w) == Credit(m, c, w)
  {
  }

  lemma BeginningAddsNoCredit(
    m: Members, d: ClientId, requestId: string, authorization: string, now: int, c: ClientId, w: string)
    requires d in m.clients && d !in m.committing
    ensures Credit(BeginCommit(m, d, requestId, authorization, now).members, c, w) <= Credit(m, c, w)
  {
  }

  lemma LeavingAddsNoCredit(m: Members, d: ClientId, c: ClientId, w: string)
    ensures Credit(Leave(m, d, false).members, c, w) <= Credit(m, c, w)
  {
  }

  lemma EndingAddsOneCredit(m: Members, d: ClientId, c: ClientId, w: string)
    requires d in m.committing
    ensures
      var committed := d == c && c in m.arrivals && m.arrivals[c].destination == w && EndCommit(m, c).reason == Committed;
      Credit(EndCommit(m, d).members, c, w) <= Credit(m, c, w) + One(committed)
  {
  }

  lemma DoorUsesCredit(config: Config, h: Hub, op: Op, c: ClientId, w: string)
    requires config.Valid() && Consistent(config, h) && Enabled(h, op)
    requires op.AskDoor? || op.Begin? || op.End? || op.GoAway?
    ensures Credit(Step(config, h, op).members, c, w) <= Credit(h.members, c, w) + One(Commits(h, op, c, w))
  {
    match op
    case AskDoor(d, q, gameTime, authorization, now) =>
      AskingAddsNoCredit(config, h.members, d, q, gameTime, now, authorization, c, w);
    case Begin(d, requestId, authorization, now) =>
      BeginningAddsNoCredit(h.members, d, requestId, authorization, now, c, w);
    case End(d, _) => EndingAddsOneCredit(h.members, d, c, w);
    case GoAway(d, _) => LeavingAddsNoCredit(h.members, d, c, w);
  }

  lemma ConnectingAddsOneCredit(m: Members, maxClients: int, d: ClientId, client: Client, c: ClientId, w: string)
    requires Registered(m) && d !in m.issued
    ensures
      var r := Register(m, maxClients, d, client);
      Credit(r.members, c, w) <= Credit(m, c, w) + One(d == c && client.initialWorld == w && r.accepted)
  {
  }

  lemma DroppingAddsNoCredit(m: Members, d: ClientId, c: ClientId, w: string)
    ensures Credit(Unregister(m, d), c, w) <= Credit(m, c, w)
  {
  }

  lemma ConnectionUsesCredit(config: Config, h: Hub, op: Op, c: ClientId, w: string)
    requires config.Valid() && Consistent(config, h) && Enabled(h, op) && (op.Connect? || op.Drop?)
    ensures Credit(Step(config, h, op).members, c, w) <= Credit(h.members, c, w) + One(Restores(config, h, op, c, w))
  {
    match op
    case Connect(id, client) => ConnectingAddsOneCredit(h.members, config.maxClients, id, client, c, w);
    case Drop(d, _) => DroppingAddsNoCredit(h.members, d, c, w);
  }

  lemma StepUsesCredit(config: Config, h: Hub, op: Op, c: ClientId, w: string)
    requires config.Valid() && Consistent(config, h) && Enabled(h, op)
    ensures Credit(Step(config, h, op).members, c, w) + One(Enters(config, h, op, c, w))
      <= Credit(h.members, c, w) + One(Commits(h, op, c, w)) + One(Restores(config, h, op, c, w))
  {
    if op.Report? {
      ReportUsesCredit(config, h, op, c, w);
    } else if op.AskDoor? || op.Begin? || op.End? || op.GoAway? {
      DoorUsesCredit(config, h, op, c, w);
    } else if op.Connect? || op.Drop? {
      ConnectionUsesCredit(config, h, op, c, w);
    }
  }

  // ---------- Whole runs ----------

  datatype Tally = Tally(entries: nat, commits: nat, restores: nat)

  ghost function TallyOf(config: Config, start: Hub, ops: seq<Op>, c: ClientId, w: string): (t: Tally)
    requires config.Valid() && Consistent(config, start)
  {
    if ops == [] then Tally(0, 0, 0)
    else
      var front, op := ops[..|ops| - 1], ops[|ops| - 1];
      var before, t := AfterOps(config, start, front), TallyOf(config, start, front, c, w);
      if !Enabled(before, op) then t
      else
        Tally(
          t.entries + One(Enters(config, before, op, c, w)),
          t.commits + One(Commits(before, op, c, w)),
          t.restores + One(Restores(config, before, op, c, w)))
  }

  lemma {:induction false} EntriesAreCovered(config: Config, start: Hub, ops: seq<Op>, c: ClientId, w: string)
    requires config.Valid() && Consistent(config, start)
    ensures
      var t := TallyOf(config, start, ops, c, w);
      t.entries + Credit(AfterOps(config, start, ops).members, c, w) <= Credit(start.members, c, w) + t.commits + t.restores
  {
    if ops != [] {
      var front := ops[..|ops| - 1];
      EntriesAreCovered(config, start, front, c, w);
      var before := AfterOps(config, start, front);
      if Enabled(before, ops[|ops| - 1]) {
        StepUsesCredit(config, before, ops[|ops| - 1], c, w);
      }
    }
  }

  lemma PresenceKeepsIssued(config: Config, m: Members, d: ClientId, presence: Presence)
    ensures Place(AllowDestination(config, m, d, presence.world).members, d, presence).issued == m.issued
    ensures AllowDestination(config, m, d, presence.world).members.issued == m.issued
  {
  }

  lemma StepKeepsIssued(config: Config, h: Hub, op: Op, c: ClientId, w: string)
    requires config.Valid() && Consistent(config, h) && Enabled(h, op)
    ensures c in h.members.issued ==> c in Step(config, h, op).members.issued && !Restores(config, h, op, c, w)
    ensures Restores(config, h, op, c, w) ==> c in Step(config, h, op).members.issued
  {
    if op.Report? {
      PresenceKeepsIssued(config, h.members, op.c, StoredPresence(h, op.c, op.message));
    }
  }

  lemma {:induction false} RestoredAtMostOnce(config: Config, start: Hub, ops: seq<Op>, c: ClientId, w: string)
    requires config.Valid() && Consistent(config, start)
    ensures TallyOf(config, start, ops, c, w).restores <= 1
    ensures TallyOf(config, start, ops, c, w).restores == 1 ==> c in AfterOps(config, start, ops).members.issued
  {
    if ops != [] {
      var front := ops[..|ops| - 1];
      RestoredAtMostOnce(config, start, front, c, w);
      var before := AfterOps(config, start, front);
      if Enabled(before, ops[|ops| - 1]) {
        StepKeepsIssued(config, before, ops[|ops| - 1], c, w);
      }
    }
  }

  /**
   * In every run of a new hub, a connection's entries into a controlled interior number at most its
   * completed transitions there, and one more if its character was saved there.
   */
  lemma EntriesNeverExceedCommitsAndOne(
    config: Config, manifest: HubState.Freight.Manifest, now: int, ops: seq<Op>, c: ClientId, w: string)
    requires config.Valid() && HubState.Freight.DistinctSpawns(manifest)
    ensures Consistent(config, NewHub(config, manifest, now))
    ensures
      var t := TallyOf(config, NewHub(config, manifest, now), ops, c, w);
      t.entries <= t.commits + t.restores <= t.commits + 1
  {
    NewHubIsConsistent(config, manifest, now);
    var start := NewHub(config, manifest, now);
    EntriesAreCovered(config, start, ops, c, w);
    RestoredAtMostOnce(config, start, ops, c, w);
  }
}
