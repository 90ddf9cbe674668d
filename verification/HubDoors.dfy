/** Which doors open to whom, and where every passage comes from (internal/realtime/transitions.go). */
module HubDoors {
  import opened Common
  import opened TravelAccess
  import opened HubTypes
  import opened HubMembers
  import opened HubState
  import opened HubTheorems
  import HubAuthority

  // ---------- One request ----------

  /** Neither empty nor too long, with no space before or after it. */
  predicate ProperId(id: string) {
    1 <= |id| && |id| <= 128 && id[0] !in WHITE_SPACE && id[|id| - 1] !in WHITE_SPACE
  }

  /** The one time `since`, within a day of the boundary, at which the clock shows `instant`, lies in the window. */
  predicate OpenAt(window: OpenWindow, instant: int) {
    exists since ::
      && window.dayBoundaryHour * HOUR <= since < (window.dayBoundaryHour + 24) * HOUR
      && since % (24 * HOUR) == instant
      && window.startMinute * MINUTE <= since < window.endMinute * MINUTE
  }

  lemma OpenIffInTheWindow(rule: Rule, instant: int)
    requires ValidRule(rule) && Instant(instant)
    ensures rule.IsOpen(instant) <==> OpenAt(rule.window, instant)
  {
    BeforeTheBoundary(rule.window, instant);
    var since := if instant / HOUR < rule.window.dayBoundaryHour then instant + 24 * HOUR else instant;
    assert since % (24 * HOUR) == instant;
    if rule.IsOpen(instant) {
      assert OpenAt(rule.window, instant);
    }
    forall other | rule.window.dayBoundaryHour * HOUR <= other < (rule.window.dayBoundaryHour + 24) * HOUR && other % (24 * HOUR) == instant
      ensures other == since
    {
      OneDayApart(other, since, rule.window.dayBoundaryHour * HOUR, instant);
    }
  }

  lemma OneDayApart(a: int, b: int, boundary: int, instant: int)
    requires 0 <= boundary <= a < boundary + 24 * HOUR && boundary <= b < boundary + 24 * HOUR
    requires a % (24 * HOUR) == instant == b % (24 * HOUR)
    ensures a == b
  {
  }

  /** Everything that a door asks of whoever wants to pass. */
  ghost predicate MayPass(config: Config, m: Members, c: ClientId, q: TransitionRequest, instant: int) {
    && ProperId(q.requestId) && q.transition in config.access.rules
    && var rule := config.access.rules[q.transition];
    && q.source == rule.source && q.door == rule.door && q.destination == rule.destination
    && c in m.presences
    && var p := m.presences[c];
    && p.world == rule.source && p.vehicle == None
    && (p.at.x - rule.x) * (p.at.x - rule.x) + (p.at.z - rule.z) * (p.at.z - rule.z) <= rule.reach * rule.reach
    && (rule.destination in config.access.always || OpenAt(rule.window, instant))
  }

  ghost predicate ValidRules(config: Config) {
    forall t :: t in config.access.rules ==> ValidRule(config.access.rules[t])
  }

  /** A door is granted if and only if everything it asks for holds. */
  lemma GrantedIffMayPass(
    config: Config, m: Members, c: ClientId, q: TransitionRequest, instant: int, now: int, authorization: string)
    requires ValidRules(config) && Instant(instant) && c in m.clients
    ensures RequestTransition(config, m, c, q, instant, now, authorization).reason == Authorized
      <==> MayPass(config, m, c, q, instant)
  {
    if q.transition in config.access.rules {
      OpenIffInTheWindow(config.access.rules[q.transition], instant);
    }
  }

  /** For hours that fit their day, open is in today's window or in yesterday's that goes on past midnight. */
  lemma GrantedInItsHours(
    config: Config, m: Members, c: ClientId, q: TransitionRequest, instant: int, now: int, authorization: string)
    requires ValidRules(config) && Instant(instant) && c in m.clients
    requires RequestTransition(config, m, c, q, instant, now, authorization).reason == Authorized
    ensures q.transition in config.access.rules
    ensures
      var rule := config.access.rules[q.transition];
      var start, end := rule.window.startMinute * MINUTE, rule.window.endMinute * MINUTE;
      FitsItsDay(rule.window) ==>
        rule.destination in config.access.always || start <= instant < end || start <= instant + 24 * HOUR < end
  {
    var rule := config.access.rules[q.transition];
    if FitsItsDay(rule.window) {
      FittingHoursMeanIt(rule, instant);
    }
  }

  /** A request drops the connection's older grant; granted, it leaves one of its own, for as long as the rule says. */
  lemma GrantIsAsAsked(config: Config, m: Members, c: ClientId, q: TransitionRequest, instant: int, now: int, authorization: string)
    requires c in m.clients
    ensures
      var r := RequestTransition(config, m, c, q, instant, now, authorization);
      && r.members == m.(grants := r.members.grants)
      && (r.reason != Authorized ==> r.members.grants == m.grants - {c})
      && (r.reason == Authorized ==>
            && q.transition in config.access.rules
            && var rule := config.access.rules[q.transition];
            r.members.grants == m.grants[c := Grant(q.requestId, authorization, rule, now + rule.lifetime * MILLISECOND)])
  {
  }

  /** A grant is good for a while. */
  lemma GrantsLast(config: Config, m: Members, c: ClientId, q: TransitionRequest, instant: int, now: int, authorization: string)
    requires ValidRules(config) && c in m.clients
    requires RequestTransition(config, m, c, q, instant, now, authorization).reason == Authorized
    ensures
      var n := RequestTransition(config, m, c, q, instant, now, authorization).members;
      c in n.grants && n.grants[c].expires > now
  {
    GrantIsAsAsked(config, m, c, q, instant, now, authorization);
  }

  datatype Check = Check(passed: bool, otherwise: TransitionReason)

  /** The first check that is not passed. */
  function FirstFailure(checks: seq<Check>): (reason: TransitionReason) {
    if checks == [] then Authorized else NextFailure(checks[0], FirstFailure(checks[1..]))
  }

  function NextFailure(check: Check, later: TransitionReason): (reason: TransitionReason) {
    if check.passed then later else check.otherwise
  }

  ghost function WordChecks(config: Config, q: TransitionRequest): (checks: seq<Check>) {
    [Check(ProperId(q.requestId), InvalidRequest), Check(q.transition in config.access.rules, UnknownTransition)]
  }

  ghost function RuleChecks(config: Config, m: Members, c: ClientId, q: TransitionRequest): (checks: seq<Check>) {
    if q.transition !in config.access.rules then []
    else
      var rule := config.access.rules[q.transition];
      [Check(q.source == rule.source, SourceMismatch), Check(q.door == rule.door, DoorMismatch),
       Check(q.destination == rule.destination, DestinationMismatch), Check(c in m.presences, NoPresence)]
  }

  ghost function PlaceChecks(config: Config, m: Members, c: ClientId, q: TransitionRequest, instant: int): (checks: seq<Check>) {
    if q.transition !in config.access.rules || c !in m.presences then []
    else
      var rule, p := config.access.rules[q.transition], m.presences[c];
      [Check(p.world == rule.source, SourceMismatch), Check(p.vehicle == None, NotOnFoot), Check(rule.WithinRange(p.at), TooFar),
       Check(rule.destination in config.access.always || OpenAt(rule.window, instant), Closed)]
  }

  /** The checks in their order. */
  ghost function Checks(config: Config, m: Members, c: ClientId, q: TransitionRequest, instant: int): (checks: seq<Check>) {
    WordChecks(config, q) + (RuleChecks(config, m, c, q) + PlaceChecks(config, m, c, q, instant))
  }

  /** The first failure among the checks, section by section. */
  lemma ChecksInOrder(config: Config, m: Members, c: ClientId, q: TransitionRequest, instant: int)
    ensures
      var r := FirstFailure(Checks(config, m, c, q, instant));
      var known := q.transition in config.access.rules;
      && (!ProperId(q.requestId) ==> r == InvalidRequest)
      && (ProperId(q.requestId) && !known ==> r == UnknownTransition)
      && (ProperId(q.requestId) && known ==>
            r == FirstFailure(RuleChecks(config, m, c, q) + PlaceChecks(config, m, c, q, instant)))
  {
    var first, rest := WordChecks(config, q), RuleChecks(config, m, c, q) + PlaceChecks(config, m, c, q, instant);
    FailuresInOrder(first, rest);
    FailureOfTwo(first[0], first[1]);
    assert first[0].passed <==> ProperId(q.requestId);
    assert first[1].passed <==> q.transition in config.access.rules;
  }

  lemma RuleChecksInOrder(config: Config, m: Members, c: ClientId, q: TransitionRequest, instant: int)
    requires q.transition in config.access.rules
    ensures
      var r, rule := FirstFailure(RuleChecks(config, m, c, q) + PlaceChecks(config, m, c, q, instant)), config.access.rules[q.transition];
      && r == (if q.source != rule.source then SourceMismatch
               else if q.door != rule.door then DoorMismatch
               else if q.destination != rule.destination then DestinationMismatch
               else if c !in m.presences then NoPresence
               else FirstFailure(PlaceChecks(config, m, c, q, instant)))
  {
    var second := RuleChecks(config, m, c, q);
    FailuresInOrder(second, PlaceChecks(config, m, c, q, instant));
    FailureOfFour(second[0], second[1], second[2], second[3]);
    FailureOfTwo(second[2], second[3]);
  }

  lemma PlaceChecksInOrder(config: Config, m: Members, c: ClientId, q: TransitionRequest, instant: int)
    requires q.transition in config.access.rules && c in m.presences
    ensures
      var r, rule, p := FirstFailure(PlaceChecks(config, m, c, q, instant)), config.access.rules[q.transition], m.presences[c];
      && r == (if p.world != rule.source then SourceMismatch
               else if p.vehicle != None then NotOnFoot
               else if !rule.WithinRange(p.at) then TooFar
               else if !(rule.destination in config.access.always || OpenAt(rule.window, instant)) then Closed
               else Authorized)
  {
    var last := PlaceChecks(config, m, c, q, instant);
    FailureOfFour(last[0], last[1], last[2], last[3]);
    FailureOfTwo(last[2], last[3]);
  }

  /** A refusal names the first thing that is wrong. */
  lemma RefusalNamesTheFirstFailure(
    config: Config, m: Members, c: ClientId, q: TransitionRequest, instant: int, now: int, authorization: string)
    requires ValidRules(config) && Instant(instant) && c in m.clients
    ensures RequestTransition(config, m, c, q, instant, now, authorization).reason == FirstFailure(Checks(config, m, c, q, instant))
  {
    ChecksInOrder(config, m, c, q, instant);
    if q.transition in config.access.rules {
      OpenIffInTheWindow(config.access.rules[q.transition], instant);
      RuleChecksInOrder(config, m, c, q, instant);
      if c in m.presences { PlaceChecksInOrder(config, m, c, q, instant); }
    }
  }

  lemma FailureOfTwo(a: Check, b: Check)
    ensures FirstFailure([a, b]) == NextFailure(a, NextFailure(b, Authorized))
  {
    assert [a, b][1..] == [b] && [b][1..] == [];
    assert FirstFailure([b]) == NextFailure(b, Authorized);
  }

  lemma FailureOfFour(a: Check, b: Check, c: Check, d: Check)
    ensures FirstFailure([a, b, c, d]) == NextFailure(a, NextFailure(b, FirstFailure([c, d])))
  {
    assert [a, b, c, d][1..] == [b, c, d] && [b, c, d][1..] == [c, d];
    assert FirstFailure([b, c, d]) == NextFailure(b, FirstFailure([c, d]));
  }

  lemma FailuresInOrder(first: seq<Check>, second: seq<Check>)
    ensures FirstFailure(first + second)
      == if forall k :: 0 <= k < |first| ==> first[k].passed then FirstFailure(second) else FirstFailure(first)
  {
    if first == [] {
      assert first + second == second;
    } else {
      assert (first + second)[1..] == first[1..] + second;
      FailuresInOrder(first[1..], second);
      if first[0].passed {
        assert (forall k :: 0 <= k < |first| ==> first[k].passed) <==> forall k :: 0 <= k < |first[1..]| ==> first[1..][k].passed by {
          assert forall k :: 1 <= k < |first| ==> first[k] == first[1..][k - 1];
        }
      }
    }
  }

  // ---------- One commit ----------

  /** A grant is still good: its own names, not too late, and everything but the hours as when it was asked for. */
  predicate MayCommit(m: Members, c: ClientId, requestId: string, authorization: string, now: int) {
    && c in m.grants && c in m.presences
    && var g, p := m.grants[c], m.presences[c];
    && g.request == requestId && g.authorization == authorization && now < g.expires
    && p.world == g.rule.source && p.vehicle == None
    && (p.at.x - g.rule.x) * (p.at.x - g.rule.x) + (p.at.z - g.rule.z) * (p.at.z - g.rule.z) <= g.rule.reach * g.rule.reach
  }

  lemma BegunIffMayCommit(m: Members, c: ClientId, requestId: string, authorization: string, now: int)
    requires c in m.clients
    ensures BeginCommit(m, c, requestId, authorization, now).reason == Authorized <==> MayCommit(m, c, requestId, authorization, now)
    ensures BeginCommit(m, c, requestId, authorization, now).reason == Authorized ==>
      var rule := m.grants[c].rule;
      BeginCommit(m, c, requestId, authorization, now).members
      == m.(grants := m.grants - {c}, arrivals := m.arrivals[c := Arrival(rule.source, rule.destination)],
            committing := m.committing + {c})
  {
  }

  // ---------- Every run ----------

  /** The grant that a request asks for. */
  function Asked(config: Config, op: Op): (g: Grant)
    requires op.AskDoor? && op.request.transition in config.access.rules
  {
    var rule := config.access.rules[op.request.transition];
    Grant(op.request.requestId, op.authorization, rule, op.now + rule.lifetime * MILLISECOND)
  }

  /** The step grants `g` to a connection that may pass. */
  ghost predicate Grants(config: Config, h: Hub, op: Op, c: ClientId, g: Grant) {
    && op.AskDoor? && op.c == c && MayPass(config, h.members, c, op.request, op.gameTime) && g == Asked(config, op)
  }

  /** The step uses the grant up for a passage. */
  ghost predicate Uses(h: Hub, op: Op, c: ClientId, g: Grant) {
    op.Begin? && op.c == c && MayCommit(h.members, c, op.requestId, op.authorization, op.now) && h.members.grants[c] == g
  }

  predicate TimeOfDayGiven(op: Op) {
    op.AskDoor? ==> Instant(op.gameTime)
  }

  lemma AskingGrants(config: Config, h: Hub, op: Op, c: ClientId)
    requires ValidRules(config) && TimeOfDayGiven(op) && op.AskDoor? && op.c in h.members.clients
    requires h.cargo.cargo.Keys == h.cargo.spawns.Keys && c in Step(config, h, op).members.grants
    ensures
      var g := Step(config, h, op).members.grants[c];
      (c in h.members.grants && h.members.grants[c] == g) || Grants(config, h, op, c, g)
  {
    GrantedIffMayPass(config, h.members, op.c, op.request, op.gameTime, op.now, op.authorization);
    GrantIsAsAsked(config, h.members, op.c, op.request, op.gameTime, op.now, op.authorization);
  }

  lemma PresenceGrantsNothing(config: Config, m: Members, d: ClientId, world: string, presence: Presence, c: ClientId)
    ensures
      var asked := AllowDestination(config, m, d, world).members;
      && (c in asked.grants ==> c in m.grants && asked.grants[c] == m.grants[c])
      && (c in asked.arrivals ==> c in m.arrivals && asked.arrivals[c] == m.arrivals[c])
      && Place(asked, d, presence).grants == asked.grants && Place(asked, d, presence).arrivals == asked.arrivals
  {
  }

  lemma ReportGrantsNothing(config: Config, h: Hub, op: Op, c: ClientId)
    requires op.Report? && h.cargo.cargo.Keys == h.cargo.spawns.Keys
    ensures
      var m, n := h.members, Step(config, h, op).members;
      && (c in n.grants ==> c in m.grants && n.grants[c] == m.grants[c])
      && (c in n.arrivals ==> c in m.arrivals && n.arrivals[c] == m.arrivals[c])
  {
    PresenceGrantsNothing(config, h.members, op.c, op.message.world, StoredPresence(h, op.c, op.message), c);
  }

  /** Grants and arrivals are only taken away between these members. */
  predicate GivesNothing(m: Members, n: Members, c: ClientId) {
    && (c in n.grants ==> c in m.grants && n.grants[c] == m.grants[c])
    && (c in n.arrivals ==> c in m.arrivals && n.arrivals[c] == m.arrivals[c])
  }

  lemma DroppingGivesNothing(m: Members, d: ClientId, c: ClientId)
    ensures GivesNothing(m, Unregister(m, d), c)
  {
  }

  lemma LeavingGivesNothing(m: Members, d: ClientId, preserveArrival: bool, c: ClientId)
    ensures GivesNothing(m, Leave(m, d, preserveArrival).members, c)
  {
  }

  lemma EndingGivesNothing(m: Members, d: ClientId, c: ClientId)
    ensures GivesNothing(m, EndCommit(m, d).members, c)
  {
    LeavingGivesNothing(m.(committing := m.committing - {d}), d, true, c);
  }

  lemma ConnectingGivesNothing(m: Members, maxClients: int, id: ClientId, client: Client, c: ClientId)
    ensures GivesNothing(m, Register(m, maxClients, id, client).members, c)
  {
  }

  lemma OtherStepsGiveNothing(config: Config, h: Hub, op: Op, c: ClientId)
    requires !op.AskDoor? && !op.Begin? && !op.Report? && h.cargo.cargo.Keys == h.cargo.spawns.Keys
    ensures GivesNothing(h.members, Step(config, h, op).members, c)
  {
    if op.Connect? {
      ConnectingGivesNothing(h.members, config.maxClients, op.id, op.client, c);
    } else if op.Drop? {
      DroppingGivesNothing(h.members, op.c, c);
    } else if op.GoAway? {
      LeavingGivesNothing(h.members, op.c, false, c);
    } else if op.End? {
      EndingGivesNothing(h.members, op.c, c);
    } else {
      assert Step(config, h, op).members == h.members;
    }
  }

  lemma BeginningGrantsNothing(m: Members, d: ClientId, requestId: string, authorization: string, now: int, c: ClientId)
    requires d in m.clients
    ensures
      var n := BeginCommit(m, d, requestId, authorization, now).members;
      c in n.grants ==> c in m.grants && n.grants[c] == m.grants[c]
  {
  }

  lemma AskingReservesNothing(
    config: Config, m: Members, d: ClientId, q: TransitionRequest, instant: int, now: int, authorization: string)
    requires d in m.clients
    ensures RequestTransition(config, m, d, q, instant, now, authorization).members.arrivals == m.arrivals
  {
    GrantIsAsAsked(config, m, d, q, instant, now, authorization);
  }

  /** A grant that is there after a step was there before it, or is granted by it. */
  lemma StepGrants(config: Config, h: Hub, op: Op, c: ClientId)
    requires ValidRules(config) && TimeOfDayGiven(op) && h.cargo.cargo.Keys == h.cargo.spawns.Keys
    requires c in Step(config, h, op).members.grants
    ensures
      var g := Step(config, h, op).members.grants[c];
      (c in h.members.grants && h.members.grants[c] == g) || Grants(config, h, op, c, g)
  {
    if op.AskDoor? && op.c in h.members.clients {
      AskingGrants(config, h, op, c);
    } else if op.Report? {
      ReportGrantsNothing(config, h, op, c);
    } else if op.Begin? && op.c in h.members.clients {
      BeginningGrantsNothing(h.members, op.c, op.requestId, op.authorization, op.now, c);
    } else if !op.AskDoor? && !op.Begin? {
      OtherStepsGiveNothing(config, h, op, c);
    }
  }

  lemma BeginningReserves(config: Config, h: Hub, op: Op, c: ClientId)
    requires op.Begin? && op.c in h.members.clients && h.cargo.cargo.Keys == h.cargo.spawns.Keys
    requires c in Step(config, h, op).members.arrivals
    ensures
      var a := Step(config, h, op).members.arrivals[c];
      || (c in h.members.arrivals && h.members.arrivals[c] == a)
      || (c in h.members.grants && Uses(h, op, c, h.members.grants[c]) && a == ArrivalOf(h.members.grants[c]))
  {
    BegunIffMayCommit(h.members, op.c, op.requestId, op.authorization, op.now);
  }

  function ArrivalOf(g: Grant): (a: Arrival) {
    Arrival(g.rule.source, g.rule.destination)
  }

  /** A reserved arrival was there before a step, or the step reserves it by using a grant. */
  lemma StepReserves(config: Config, h: Hub, op: Op, c: ClientId)
    requires h.cargo.cargo.Keys == h.cargo.spawns.Keys && c in Step(config, h, op).members.arrivals
    ensures
      var a := Step(config, h, op).members.arrivals[c];
      || (c in h.members.arrivals && h.members.arrivals[c] == a)
      || (c in h.members.grants && Uses(h, op, c, h.members.grants[c]) && a == ArrivalOf(h.members.grants[c]))
  {
    if op.Begin? && op.c in h.members.clients {
      BeginningReserves(config, h, op, c);
    } else if op.Report? {
      ReportGrantsNothing(config, h, op, c);
    } else if op.AskDoor? && op.c in h.members.clients {
      AskingReservesNothing(config, h.members, op.c, op.request, op.gameTime, op.now, op.authorization);
    } else if !op.Begin? && !op.AskDoor? {
      OtherStepsGiveNothing(config, h, op, c);
    }
  }

  /** `n` is what the step makes of `h`, or `h` if it cannot happen. */
  ghost predicate Follows(config: Config, h: Hub, op: Op, n: Hub) {
    h.cargo.cargo.Keys == h.cargo.spawns.Keys && n == if Enabled(h, op) then Step(config, h, op) else h
  }

  /** The states that a run goes through from one without grants or reserved passages. */
  ghost predicate Runs(config: Config, states: seq<Hub>, ops: seq<Op>) {
    && |states| == |ops| + 1
    && states[0].members.grants == map[] && states[0].members.arrivals == map[]
    && (forall k :: 0 <= k < |ops| ==> TimeOfDayGiven(ops[k]) && Follows(config, states[k], ops[k], states[k + 1]))
  }

  /** The `i`-th step of the run granted `g`. */
  ghost predicate GrantedAt(config: Config, states: seq<Hub>, ops: seq<Op>, i: nat, c: ClientId, g: Grant) {
    i < |ops| && i < |states| && Grants(config, states[i], ops[i], c, g)
  }

  ghost predicate UsedAt(states: seq<Hub>, ops: seq<Op>, j: nat, c: ClientId, g: Grant) {
    j < |ops| && j < |states| && Uses(states[j], ops[j], c, g)
  }

  /** The grant that is there after the `k`-th step was there before it, or is granted by it. */
  ghost predicate GrantGoes(config: Config, states: seq<Hub>, ops: seq<Op>, k: nat, c: ClientId)
    requires k + 1 < |states|
  {
    var before, after := Lookup(states[k].members.grants, c), Lookup(states[k + 1].members.grants, c);
    after.Some? ==> before == after || GrantedAt(config, states, ops, k, c, after.value)
  }

  lemma StepGrantsAt(config: Config, states: seq<Hub>, ops: seq<Op>, k: nat, c: ClientId)
    requires Runs(config, states, ops) && k < |ops| && ValidRules(config)
    ensures GrantGoes(config, states, ops, k, c)
  {
    assert Follows(config, states[k], ops[k], states[k + 1]);
    if Enabled(states[k], ops[k]) && c in states[k + 1].members.grants { StepGrants(config, states[k], ops[k], c); }
  }

  lemma {:induction false} GrantCameByAStep(config: Config, states: seq<Hub>, ops: seq<Op>, n: nat, c: ClientId) returns (i: nat)
    requires n < |states| && c in states[n].members.grants && c !in states[0].members.grants
    requires forall k :: 0 <= k < n ==> GrantGoes(config, states, ops, k, c)
    ensures i < n && GrantedAt(config, states, ops, i, c, states[n].members.grants[c])
  {
    assert GrantGoes(config, states, ops, n - 1, c);
    if Lookup(states[n - 1].members.grants, c) == Lookup(states[n].members.grants, c) {
      i := GrantCameByAStep(config, states, ops, n - 1, c);
    } else {
      i := n - 1;
    }
  }

  lemma GrantsAreGranted(config: Config, states: seq<Hub>, ops: seq<Op>, n: nat, c: ClientId) returns (i: nat)
    requires Runs(config, states, ops) && ValidRules(config) && n <= |ops| && c in states[n].members.grants
    ensures i < n && GrantedAt(config, states, ops, i, c, states[n].members.grants[c])
  {
    forall k | 0 <= k < n ensures GrantGoes(config, states, ops, k, c) {
      StepGrantsAt(config, states, ops, k, c);
    }
    i := GrantCameByAStep(config, states, ops, n, c);
  }

  lemma StepReservesAt(config: Config, states: seq<Hub>, ops: seq<Op>, n: nat, c: ClientId)
    requires Runs(config, states, ops) && n < |ops| && c in states[n + 1].members.arrivals
    ensures
      var m, a := states[n].members, states[n + 1].members.arrivals[c];
      || (c in m.arrivals && m.arrivals[c] == a)
      || (c in m.grants && UsedAt(states, ops, n, c, m.grants[c]) && a == ArrivalOf(m.grants[c]))
  {
    assert Follows(config, states[n], ops[n], states[n + 1]);
    if Enabled(states[n], ops[n]) { StepReserves(config, states[n], ops[n], c); }
  }

  /** A passage that was granted at the `i`-th step and begun at the `j`-th. */
  ghost predicate Passage(config: Config, states: seq<Hub>, ops: seq<Op>, i: nat, j: nat, c: ClientId, a: Arrival) {
    && i < j < |ops| && ops[i].AskDoor? && ops[i].request.transition in config.access.rules
    && var g := Asked(config, ops[i]);
    && GrantedAt(config, states, ops, i, c, g) && UsedAt(states, ops, j, c, g) && a == ArrivalOf(g)
  }

  lemma {:induction false} ArrivalsArePassages(config: Config, states: seq<Hub>, ops: seq<Op>, n: nat, c: ClientId)
    returns (i: nat, j: nat)
    requires Runs(config, states, ops) && ValidRules(config) && n <= |ops| && c in states[n].members.arrivals
    ensures j < n && Passage(config, states, ops, i, j, c, states[n].members.arrivals[c])
  {
    StepReservesAt(config, states, ops, n - 1, c);
    var before := states[n - 1].members;
    if c in before.arrivals && before.arrivals[c] == states[n].members.arrivals[c] {
      i, j := ArrivalsArePassages(config, states, ops, n - 1, c);
    } else {
      j := n - 1;
      i := GrantsAreGranted(config, states, ops, j, c);
    }
  }

  /** The states of a run of the hub. */
  ghost function Before(config: Config, start: Hub, ops: seq<Op>, n: nat): (h: Hub)
    requires config.Valid() && Consistent(config, start) && n <= |ops|
    ensures Consistent(config, h)
  {
    AfterOps(config, start, ops[..n])
  }

  lemma OneStepMore(config: Config, start: Hub, ops: seq<Op>, n: nat)
    requires config.Valid() && Consistent(config, start) && n < |ops|
    ensures Follows(config, Before(config, start, ops, n), ops[n], Before(config, start, ops, n + 1))
  {
    assert ops[..n + 1][..n] == ops[..n];
  }

  lemma NewHubsRun(config: Config, manifest: HubState.Freight.Manifest, now: int, ops: seq<Op>) returns (states: seq<Hub>)
    requires config.Valid() && HubState.Freight.DistinctSpawns(manifest)
    requires forall n :: 0 <= n < |ops| ==> TimeOfDayGiven(ops[n])
    ensures Consistent(config, NewHub(config, manifest, now))
    ensures Runs(config, states, ops)
    ensures forall n :: 0 <= n <= |ops| ==> states[n] == Before(config, NewHub(config, manifest, now), ops, n)
  {
    NewHubIsConsistent(config, manifest, now);
    var start := NewHub(config, manifest, now);
    states := seq(|ops| + 1, n requires 0 <= n <= |ops| => Before(config, start, ops, n));
    assert ops[..0] == [];
    forall k | 0 <= k < |ops| ensures Follows(config, states[k], ops[k], states[k + 1]) {
      OneStepMore(config, start, ops, k);
    }
  }

  lemma PassageIsInTime(config: Config, states: seq<Hub>, ops: seq<Op>, i: nat, j: nat, c: ClientId, a: Arrival)
    requires Passage(config, states, ops, i, j, c, a)
    ensures ops[i].c == c && config.access.rules[ops[i].request.transition].destination == a.destination
    ensures MayPass(config, states[i].members, c, ops[i].request, ops[i].gameTime)
    ensures ops[j].Begin? && ops[j].c == c
    ensures ops[j].requestId == ops[i].request.requestId && ops[j].authorization == ops[i].authorization
    ensures ops[j].now < ops[i].now + config.access.rules[ops[i].request.transition].lifetime * MILLISECOND
  {
  }

  /**
   * In every run of a new hub a connection completes a transition to a world only if it began one before,
   * by a grant of its own to that world that it had been given earlier, when it might pass, and that had
   * not yet expired.
   */
  lemma CommitsComeFromGrants(
    config: Config, manifest: HubState.Freight.Manifest, now: int, ops: seq<Op>, k: nat, c: ClientId, w: string)
    requires config.Valid() && HubState.Freight.DistinctSpawns(manifest) && ValidRules(config)
    requires k < |ops| && forall n :: 0 <= n < |ops| ==> TimeOfDayGiven(ops[n])
    ensures Consistent(config, NewHub(config, manifest, now))
    ensures
      var start := NewHub(config, manifest, now);
      HubAuthority.Commits(Before(config, start, ops, k), ops[k], c, w) ==>
        exists i: nat, j: nat ::
          && i < j < k && ops[i].AskDoor? && ops[i].c == c && ops[i].request.transition in config.access.rules
          && config.access.rules[ops[i].request.transition].destination == w
          && MayPass(config, Before(config, start, ops, i).members, c, ops[i].request, ops[i].gameTime)
          && ops[j].Begin? && ops[j].c == c
          && ops[j].requestId == ops[i].request.requestId && ops[j].authorization == ops[i].authorization
          && ops[j].now < ops[i].now + config.access.rules[ops[i].request.transition].lifetime * MILLISECOND
  {
    var states := NewHubsRun(config, manifest, now, ops);
    if HubAuthority.Commits(states[k], ops[k], c, w) {
      var i, j := ArrivalsArePassages(config, states, ops, k, c);
      PassageIsInTime(config, states, ops, i, j, c, states[k].members.arrivals[c]);
    }
  }
}
