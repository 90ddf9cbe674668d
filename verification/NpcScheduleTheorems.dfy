/** Walking one route of one journey on one day, or one phase of a round, is never announced as a jump. */
module NpcScheduleTheorems {
  import opened Common
  import opened NpcRoute
  import opened NpcCircuit
  import opened NpcSchedule

  /** The same but for the schedule second it was evaluated at. */
  predicate SameBut(s: State, t: State) {
    t == s.(effectiveSecond := t.effectiveSecond)
  }

  predicate SameCursor(c: Cursor, d: Cursor) {
    SameBut(c.state, d.state) && c.descriptor == d.descriptor && c.active == d.active
  }

  /** Where a turn that stops inside an operation leaves the leg. */
  predicate LegFrom(journey: nat, index: nat, leg: Leg) {
    leg == NotOnRoute || (leg.OnRoute? && leg.journey == journey && leg.operation >= index)
  }

  /** Two stops on one leg lie no further apart than the leg's speed allows. */
  ghost predicate NearOnTheLeg(setting: Setting, s: State, t: State, delta: real) {
    s.leg == t.leg && s.leg != NotOnRoute ==>
      && s.speed == t.speed && s.speed >= 0.0
      && HorizontalDistance(setting.root, s.position, t.position) <= Times(s.speed, delta)
  }

  lemma ProductsOrder(a: real, b: real, speed: real)
    requires a <= b && speed >= 0.0
    ensures Times(a, speed) <= Times(b, speed) && Times(b, speed) - Times(a, speed) == Times(speed, b - a)
  {
    ProductIsPositive(b - a, speed);
    assert Times(b - a, speed) == Times(b, speed) - Times(a, speed);
    assert Times(b - a, speed) == Times(speed, b - a);
  }

  lemma SpeedsOrder(speed: real, a: real, b: real)
    requires a <= b && speed >= 0.0
    ensures Times(speed, a) <= Times(speed, b)
  {
    ProductIsPositive(speed, b - a);
    assert Times(speed, b - a) == Times(speed, b) - Times(speed, a);
  }

  lemma OnTheWayTwice(
    setting: Setting, c: Cursor, d: Cursor, points: seq<Vector3>, near: real, far: real, delta: real, speed: real, leg: Leg)
    requires IsRoot(setting.root) && SameCursor(c, d) && points != [] && speed >= 0.0
    requires near <= far && far - near <= Times(speed, delta)
    ensures NearOnTheLeg(
      setting, OnTheWay(setting, c, points, near, speed, leg), OnTheWay(setting, d, points, far, speed, leg), delta)
  {
    SamplingIsLipschitz(setting.root, points, near, far);
  }

  /** Following one route from one start at two times: both on the way and near, or off it in one place. */
  lemma RouteTwice(
    setting: Setting, c: Cursor, d: Cursor, points: seq<Vector3>, since: real, near: real, far: real, delta: real, speed: real, leg: Leg)
    requires IsRoot(setting.root) && SameCursor(c, d) && points != [] && speed >= 0.0
    requires near <= far && far - near <= delta
    ensures TurnsAlike(
      setting, FollowRoute(setting, c, points, since, near, speed, leg), FollowRoute(setting, d, points, since, far, speed, leg), delta)
  {
    ProductsOrder(near, far, speed);
    SpeedsOrder(speed, far - near, delta);
    OnTheWayTwice(setting, c, d, points, Times(near, speed), Times(far, speed), delta, speed, leg);
  }

  /** One operation at two times of the day. */
  ghost predicate TurnsAlike(setting: Setting, r: Turn, q: Turn, delta: real) {
    && (r.Goes? && q.Goes? ==> SameCursor(r.cursor, q.cursor))
    && (r.Stops? && q.Stops? ==> NearOnTheLeg(setting, r.state, q.state, delta))
  }

  predicate OffRoute(c: Cursor) {
    c.state.leg == NotOnRoute
  }

  // ---------- What a turn carries ----------

  /** Going on stays off the route and at the same second; stopping is on one of `legs`, if on any. */
  ghost predicate Carries(c: Cursor, r: Turn, legs: set<Leg>) {
    && (r.Goes? ==> r.cursor.state.leg == c.state.leg && r.cursor.state.effectiveSecond == c.state.effectiveSecond)
    && (r.Stops? ==>
          && r.state.effectiveSecond == c.state.effectiveSecond
          && (r.state.leg == NotOnRoute || r.state.leg == c.state.leg || r.state.leg in legs))
  }

  lemma FollowRouteCarries(
    setting: Setting, c: Cursor, points: seq<Vector3>, since: real, elapsed: real, speed: real, leg: Leg)
    requires points != [] && speed >= 0.0
    ensures
      var r := FollowRoute(setting, c, points, since, elapsed, speed, leg);
      Carries(c, r, {leg}) && (r.Stops? ==> r.state.leg in {leg, NotOnRoute})
  {
  }

  lemma ReachHandoffCarries(
    setting: Setting, action: Action, c: Cursor, second: real, notBefore: real, speed: real, leg: Leg)
    requires action.Activate? && speed >= 0.0
    ensures
      var r := ReachHandoff(setting, action, c, second, notBefore, speed, leg);
      Carries(c, r, {leg}) && (r.Stops? ==> r.state.leg in {leg, NotOnRoute})
  {
    if action.controller != [] {
      FollowRouteCarries(setting, c, action.controller, notBefore, second - notBefore, speed, leg);
    }
  }

  lemma ActivateCarries(setting: Setting, journey: nat, start: real, index: nat, action: Action, c: Cursor, second: real)
    requires action.Activate?
    ensures Carries(
      c, PerformActivate(setting, journey, start, index, action, c, second),
      {OnRoute(journey, index, Controller), OnRoute(journey, index, Handoff)})
  {
    var notBefore, speed := NotBefore(start, action.activation, action.minimumDelay), RouteSpeed(setting, 0.0);
    if second >= notBefore {
      var controller, handoff := OnRoute(journey, index, Controller), OnRoute(journey, index, Handoff);
      ReachHandoffCarries(setting, action, c, second, notBefore, speed, controller);
      var a := ReachHandoff(setting, action, c, second, notBefore, speed, controller);
      if a.Goes? && action.handoff != [] {
        FollowRouteCarries(setting, a.cursor, action.handoff, a.cursor.descriptor, second - a.cursor.descriptor, speed, handoff);
      }
    }
  }

  lemma WalkCarries(setting: Setting, journey: nat, index: nat, action: Action, c: Cursor, second: real)
    requires action.Walk?
    ensures Carries(c, PerformWalk(setting, journey, index, action, c, second), {OnRoute(journey, index, Primary)})
  {
    var speed := RouteSpeed(setting, action.step);
    if action.points != [] && speed > 0.0 {
      var world := if action.area != "" then WorldOf(setting, action.area) else c.state.world;
      FollowRouteCarries(
        setting, c.(state := c.state.(area := action.area, world := world)), action.points, c.descriptor,
        Clamped(second - c.descriptor), speed, OnRoute(journey, index, Primary));
    }
  }

  lemma PerformCarries(
    setting: Setting, journey: nat, start: real, index: nat, operation: Operation, c: Cursor, second: real)
    ensures Carries(
      c, Perform(setting, journey, start, index, operation, c, second),
      {OnRoute(journey, index, Primary), OnRoute(journey, index, Controller), OnRoute(journey, index, Handoff)})
  {
    var here := Arrive(c, operation);
    assert here.state.leg == c.state.leg && here.state.effectiveSecond == c.state.effectiveSecond;
    if operation.action.Walk? {
      WalkCarries(setting, journey, index, operation.action, here, second);
    } else if operation.action.Activate? {
      ActivateCarries(setting, journey, start, index, operation.action, here, second);
    }
  }

  // ---------- The same operation at two times ----------

  lemma WalkTwice(setting: Setting, journey: nat, index: nat, action: Action, c: Cursor, d: Cursor, near: real, far: real)
    requires IsRoot(setting.root) && action.Walk? && SameCursor(c, d) && OffRoute(c) && near <= far
    ensures
      var r, q := PerformWalk(setting, journey, index, action, c, near), PerformWalk(setting, journey, index, action, d, far);
      TurnsAlike(setting, r, q, far - near)
  {
    var speed := RouteSpeed(setting, action.step);
    if action.points != [] && speed > 0.0 {
      var world := if action.area != "" then WorldOf(setting, action.area) else c.state.world;
      var a, b := c.(state := c.state.(area := action.area, world := world)), d.(state := d.state.(area := action.area, world := world));
      RouteTwice(
        setting, a, b, action.points, c.descriptor, Clamped(near - c.descriptor), Clamped(far - c.descriptor), far - near, speed,
        OnRoute(journey, index, Primary));
    }
  }

  lemma ReachHandoffTwice(
    setting: Setting, action: Action, c: Cursor, d: Cursor, near: real, far: real, notBefore: real, speed: real, leg: Leg)
    requires IsRoot(setting.root) && action.Activate? && SameCursor(c, d) && OffRoute(c) && near <= far && speed >= 0.0
    ensures
      var a := ReachHandoff(setting, action, c, near, notBefore, speed, leg);
      var b := ReachHandoff(setting, action, d, far, notBefore, speed, leg);
      && (a.Stops? && b.Stops? ==> NearOnTheLeg(setting, a.state, b.state, far - near))
      && (a.Goes? && b.Goes? ==> SameCursor(a.cursor, b.cursor))
  {
    if action.controller != [] {
      RouteTwice(setting, c, d, action.controller, notBefore, near - notBefore, far - notBefore, far - near, speed, leg);
      assert ReachHandoff(setting, action, c, near, notBefore, speed, leg)
        == FollowRoute(setting, c, action.controller, notBefore, near - notBefore, speed, leg);
      assert ReachHandoff(setting, action, d, far, notBefore, speed, leg)
        == FollowRoute(setting, d, action.controller, notBefore, far - notBefore, speed, leg);
    }
  }

  lemma DifferentLegsAreAlike(setting: Setting, r: Turn, q: Turn, delta: real)
    requires r.Goes? ==> !q.Goes?
    requires r.Stops? && q.Stops? ==> r.state.leg != q.state.leg || r.state.leg == NotOnRoute
    ensures TurnsAlike(setting, r, q, delta)
  {
  }

  lemma HandOffCarries(setting: Setting, action: Action, a: Turn, second: real, speed: real, leg: Leg)
    requires action.Activate? && speed >= 0.0 && a.Goes? && action.handoff != []
    ensures
      var r := HandOff(setting, action, a, second, speed, leg);
      r.Stops? ==> r.state.leg in {leg, NotOnRoute}
  {
    FollowRouteCarries(setting, a.cursor, action.handoff, a.cursor.descriptor, second - a.cursor.descriptor, speed, leg);
  }

  lemma BothHandOff(setting: Setting, action: Action, a: Turn, b: Turn, near: real, far: real, speed: real, handoff: Leg)
    requires IsRoot(setting.root) && action.Activate? && action.handoff != [] && near <= far && speed >= 0.0
    requires a.Goes? && b.Goes? && SameCursor(a.cursor, b.cursor)
    ensures TurnsAlike(
      setting, HandOff(setting, action, a, near, speed, handoff), HandOff(setting, action, b, far, speed, handoff), far - near)
  {
    var since := a.cursor.descriptor;
    RouteTwice(setting, a.cursor, b.cursor, action.handoff, since, near - since, far - since, far - near, speed, handoff);
  }

  lemma OneHandsOff(
    setting: Setting, action: Action, a: Turn, b: Turn, second: real, speed: real, controller: Leg, handoff: Leg, delta: real)
    requires action.Activate? && action.handoff != [] && speed >= 0.0 && controller != handoff
    requires a.Goes? && !b.Goes? && (b.Stops? ==> b.state.leg in {controller, NotOnRoute})
    ensures TurnsAlike(setting, HandOff(setting, action, a, second, speed, handoff), b, delta)
    ensures TurnsAlike(setting, b, HandOff(setting, action, a, second, speed, handoff), delta)
  {
    HandOffCarries(setting, action, a, second, speed, handoff);
    var r := HandOff(setting, action, a, second, speed, handoff);
    DifferentLegsAreAlike(setting, r, b, delta);
    DifferentLegsAreAlike(setting, b, r, delta);
  }

  lemma HandOffTwice(
    setting: Setting, action: Action, a: Turn, b: Turn, near: real, far: real, speed: real, controller: Leg, handoff: Leg)
    requires IsRoot(setting.root) && action.Activate? && near <= far && speed >= 0.0 && controller != handoff
    requires TurnsAlike(setting, a, b, far - near)
    requires a.Stops? ==> a.state.leg in {controller, NotOnRoute}
    requires b.Stops? ==> b.state.leg in {controller, NotOnRoute}
    ensures TurnsAlike(
      setting, HandOff(setting, action, a, near, speed, handoff), HandOff(setting, action, b, far, speed, handoff), far - near)
  {
    if action.handoff != [] {
      if a.Goes? && b.Goes? {
        BothHandOff(setting, action, a, b, near, far, speed, handoff);
      } else if a.Goes? {
        OneHandsOff(setting, action, a, b, near, speed, controller, handoff, far - near);
      } else if b.Goes? {
        OneHandsOff(setting, action, b, a, far, speed, controller, handoff, far - near);
      }
    }
  }

  lemma ActivateTwice(
    setting: Setting, journey: nat, start: real, index: nat, action: Action, c: Cursor, d: Cursor, near: real, far: real)
    requires IsRoot(setting.root) && action.Activate? && SameCursor(c, d) && OffRoute(c) && near <= far
    ensures
      var r := PerformActivate(setting, journey, start, index, action, c, near);
      var q := PerformActivate(setting, journey, start, index, action, d, far);
      TurnsAlike(setting, r, q, far - near)
  {
    var notBefore, speed := NotBefore(start, action.activation, action.minimumDelay), RouteSpeed(setting, 0.0);
    var controller, handoff := OnRoute(journey, index, Controller), OnRoute(journey, index, Handoff);
    if near >= notBefore {
      ReachHandoffTwice(setting, action, c, d, near, far, notBefore, speed, controller);
      ReachHandoffCarries(setting, action, c, near, notBefore, speed, controller);
      ReachHandoffCarries(setting, action, d, far, notBefore, speed, controller);
      HandOffTwice(
        setting, action, ReachHandoff(setting, action, c, near, notBefore, speed, controller),
        ReachHandoff(setting, action, d, far, notBefore, speed, controller), near, far, speed, controller, handoff);
    }
  }

  /** An operation that walks no route leaves its actor off all of them. */
  lemma StandingIsOffRoute(
    setting: Setting, journey: nat, start: real, index: nat, operation: Operation, c: Cursor, second: real)
    requires !operation.action.Walk? && !operation.action.Activate? && OffRoute(c)
    ensures
      var r := Perform(setting, journey, start, index, operation, c, second);
      r.Stops? ==> r.state.leg == NotOnRoute
  {
  }

  /** How an actor that has come to such an operation goes on, at whatever second. */
  function GoneOn(setting: Setting, action: Action, here: Cursor): (c: Cursor) {
    match action
    case EnterArea(area) => here.(state := here.state.(area := area, world := WorldOf(setting, area)))
    case PlaceAt(Some(position)) => here.(state := here.state.(position := position, hasPosition := true, mode := Acting))
    case Wait(duration) => here.(descriptor := here.descriptor + duration)
    case Gate(release) => here.(descriptor := release)
    case TimeControl(value) => here.(descriptor := ReleaseTime(value, here.descriptor))
    case Lifecycle(active) => here.(active := active)
    case _ => here
  }

  lemma StandingGoesOn(
    setting: Setting, journey: nat, start: real, index: nat, operation: Operation, c: Cursor, second: real)
    requires !operation.action.Walk? && !operation.action.Activate?
    ensures
      var r := Perform(setting, journey, start, index, operation, c, second);
      r.Goes? ==> r.cursor == GoneOn(setting, operation.action, Arrive(c, operation))
  {
  }

  lemma ArriveAlike(operation: Operation, c: Cursor, d: Cursor)
    requires SameCursor(c, d)
    ensures SameCursor(Arrive(c, operation), Arrive(d, operation))
  {
  }

  lemma GoneOnAlike(setting: Setting, action: Action, c: Cursor, d: Cursor)
    requires SameCursor(c, d)
    ensures SameCursor(GoneOn(setting, action, c), GoneOn(setting, action, d))
  {
  }

  lemma OffRouteIsAlike(setting: Setting, r: Turn, q: Turn, delta: real)
    requires r.Goes? && q.Goes? ==> SameCursor(r.cursor, q.cursor)
    requires r.Stops? ==> r.state.leg == NotOnRoute
    ensures TurnsAlike(setting, r, q, delta)
  {
  }

  lemma PerformTwice(
    setting: Setting, journey: nat, start: real, index: nat, operation: Operation, c: Cursor, d: Cursor, near: real, far: real)
    requires IsRoot(setting.root) && SameCursor(c, d) && OffRoute(c) && near <= far
    ensures
      var r := Perform(setting, journey, start, index, operation, c, near);
      var q := Perform(setting, journey, start, index, operation, d, far);
      TurnsAlike(setting, r, q, far - near)
  {
    var a, b := Arrive(c, operation), Arrive(d, operation);
    if operation.action.Walk? {
      WalkTwice(setting, journey, index, operation.action, a, b, near, far);
    } else if operation.action.Activate? {
      ActivateTwice(setting, journey, start, index, operation.action, a, b, near, far);
    } else {
      StandingIsOffRoute(setting, journey, start, index, operation, c, near);
      StandingGoesOn(setting, journey, start, index, operation, c, near);
      StandingGoesOn(setting, journey, start, index, operation, d, far);
      ArriveAlike(operation, c, d);
      GoneOnAlike(setting, operation.action, Arrive(c, operation), Arrive(d, operation));
      OffRouteIsAlike(
        setting, Perform(setting, journey, start, index, operation, c, near),
        Perform(setting, journey, start, index, operation, d, far), far - near);
    }
  }

  lemma {:induction false} FollowCarries(
    setting: Setting, journey: nat, start: real, operations: seq<Operation>, index: nat, c: Cursor, second: real)
    requires index <= |operations| && OffRoute(c)
    ensures
      var r := Follow(setting, journey, start, operations, index, c, second);
      r.Some? ==> LegFrom(journey, index, r.value.leg) && r.value.effectiveSecond == c.state.effectiveSecond
    decreases |operations| - index
  {
    if index < |operations| {
      PerformCarries(setting, journey, start, index, operations[index], c, second);
      match Perform(setting, journey, start, index, operations[index], c, second)
      case Goes(next) => FollowCarries(setting, journey, start, operations, index + 1, next, second);
      case Stops(_) =>
      case Fails =>
    }
  }

  lemma {:induction false} FollowTwice(
    setting: Setting, journey: nat, start: real, operations: seq<Operation>, index: nat, c: Cursor, d: Cursor, near: real, far: real)
    requires IsRoot(setting.root) && index <= |operations| && SameCursor(c, d) && OffRoute(c) && near <= far
    ensures
      var r := Follow(setting, journey, start, operations, index, c, near);
      var q := Follow(setting, journey, start, operations, index, d, far);
      r.Some? && q.Some? ==> NearOnTheLeg(setting, r.value, q.value, far - near)
    decreases |operations| - index
  {
    if index < |operations| {
      var operation := operations[index];
      PerformTwice(setting, journey, start, index, operation, c, d, near, far);
      PerformCarries(setting, journey, start, index, operation, c, near);
      PerformCarries(setting, journey, start, index, operation, d, far);
      var r := Perform(setting, journey, start, index, operation, c, near);
      var q := Perform(setting, journey, start, index, operation, d, far);
      if r.Goes? && q.Goes? {
        FollowTwice(setting, journey, start, operations, index + 1, r.cursor, q.cursor, near, far);
      } else if r.Goes? {
        FollowCarries(setting, journey, start, operations, index + 1, r.cursor, near);
      } else if q.Goes? {
        FollowCarries(setting, journey, start, operations, index + 1, q.cursor, far);
      }
    }
  }

  // ---------- The same round at two times ----------

  lemma AroundTwice(setting: Setting, area: string, phase: Phase, near: real, far: real, span: real, leg: Leg)
    requires IsRoot(setting.root) && Walkable(phase.track) && setting.rate > 0.0
    requires 0.0 <= far - near <= Times(span, setting.rate) && 0.0 <= span
    ensures
      var s, t := Around(setting, area, phase, near, leg), Around(setting, area, phase, far, leg);
      s.Some? && t.Some? ==> NearOnTheLeg(setting, s.value, t.value, span)
  {
    var track := phase.track;
    CoveredTwice(setting.root, phase, near, far, Times(span, setting.rate));
    SamplingIsLipschitz(
      setting.root, track.points, Covered(setting.root, phase, near), Covered(setting.root, phase, far));
    SpeedIsPositive(track, 0.0);
    ProductIsPositive(Speed(track), setting.rate);
    Regroup(span, setting.rate, Speed(track));
  }

  lemma Regroup(span: real, rate: real, speed: real)
    ensures Times(Times(span, rate), speed) == Times(Times(speed, rate), span)
  {
  }

  lemma GoRoundTwice(
    setting: Setting, journey: nat, area: string, phases: seq<Phase>, cycle: real, x: real, y: real, span: real)
    requires IsRoot(setting.root) && phases != [] && cycle > 0.0 && (forall p :: p in phases ==> Walkable(p.track))
    requires setting.rate > 0.0 && 0.0 <= y - x <= Times(span, setting.rate) && 0.0 <= span
    ensures
      var s, t := GoRound(setting, journey, area, phases, cycle, x), GoRound(setting, journey, area, phases, cycle, y);
      s.Some? && t.Some? ==> NearOnTheLeg(setting, s.value, t.value, span)
  {
    var s, t := GoRound(setting, journey, area, phases, cycle, x), GoRound(setting, journey, area, phases, cycle, y);
    if s.Some? && t.Some? && s.value.leg == t.value.leg {
      OneLap(x, y, cycle);
      SpotTwice(phases, 0, SinceLap(x, cycle), SinceLap(y, cycle));
      var p, q := SpotFrom(phases, 0, SinceLap(x, cycle)), SpotFrom(phases, 0, SinceLap(y, cycle));
      AroundTwice(setting, area, phases[p.phase], p.within, q.within, span, s.value.leg);
    }
  }

  lemma CircleTwice(setting: Setting, journey: nat, start: real, operations: seq<Operation>, near: real, far: real)
    requires IsRoot(setting.root) && near <= far
    ensures
      var s, t := Circle(setting, journey, start, operations, near), Circle(setting, journey, start, operations, far);
      s.Some? && t.Some? ==> NearOnTheLeg(setting, s.value, t.value, far - near)
  {
    var s, t := Circle(setting, journey, start, operations, near), Circle(setting, journey, start, operations, far);
    if s.Some? && t.Some? {
      var rounds := RoundsOf(operations);
      var phases := Phases(setting.root, rounds, |rounds|);
      TimesLess(Clamped(near - start), Clamped(far - start), far - near, setting.rate);
      GoRoundTwice(
        setting, journey, LastArea(setting.defaultArea, operations), phases, CycleTime(phases),
        Elapsed(setting, start, near), Elapsed(setting, start, far), far - near);
    }
  }

  lemma CircleCarries(setting: Setting, journey: nat, start: real, operations: seq<Operation>, second: real)
    ensures
      var s := Circle(setting, journey, start, operations, second);
      s.Some? ==> s.value.leg.OnCircuit? && s.value.leg.journey == journey
  {
  }

  /** What a whole journey carries: the second asked for, and its own legs. */
  lemma TravelCarries(setting: Setting, journey: nat, start: real, operations: seq<Operation>, effective: real, second: real)
    ensures
      var s, circle := Travel(setting, journey, start, operations, effective, second), Circle(setting, journey, start, operations, second);
      s.Some? ==>
        && s.value.effectiveSecond == effective
        && (s.value.leg == NotOnRoute
            || (s.value.leg.journey == journey && (if circle.Some? then s.value.leg.OnCircuit? else s.value.leg.OnRoute?)))
  {
    CircleCarries(setting, journey, start, operations, second);
    FollowCarries(setting, journey, start, operations, 0, Departure(setting, start, effective), second);
  }

  lemma TravelTwice(
    setting: Setting, journey: nat, start: real, operations: seq<Operation>, e: real, f: real, near: real, far: real)
    requires IsRoot(setting.root) && near <= far
    ensures
      var s, t := Travel(setting, journey, start, operations, e, near), Travel(setting, journey, start, operations, f, far);
      s.Some? && t.Some? ==> NearOnTheLeg(setting, s.value, t.value, far - near)
  {
    CircleTwice(setting, journey, start, operations, near, far);
    TravelCarries(setting, journey, start, operations, e, near);
    TravelCarries(setting, journey, start, operations, f, far);
    FollowTwice(
      setting, journey, start, operations, 0, Departure(setting, start, e), Departure(setting, start, f), near, far);
  }

  // ---------- One day ----------

  predicate SameDay(e: real, f: real) {
    (e / GAME_DAY_SECONDS).Floor == (f / GAME_DAY_SECONDS).Floor
  }

  lemma SecondsOfOneDay(e: real, f: real)
    requires SameDay(e, f) && e <= f
    ensures NormalizedSecond(f) - NormalizedSecond(e) == f - e <= GAME_DAY_SECONDS
  {
  }

  /** An actor that is on one leg at two times of a day, and no more than a second earlier the second time. */
  ghost predicate StaysOnLeg(setting: Setting, journeys: seq<Journey>, e: real, f: real) {
    var s, t := Evaluate(setting, journeys, e), Evaluate(setting, journeys, f);
    && SameDay(e, f) && e - 1.0 <= f
    && s.Some? && t.Some? && s.value.leg == t.value.leg && s.value.leg != NotOnRoute
  }

  /**
   * Two evaluations that find an actor on the same route of the same journey, or in the same phase of the
   * same round, on one day, lie close enough together that no jump is announced: schedule time may go on
   * for as long as it likes, and back by up to a second.
   */
  lemma SameLegIsNoJump(setting: Setting, journeys: seq<Journey>, e: real, f: real)
    requires IsRoot(setting.root) && StaysOnLeg(setting, journeys, e, f)
    ensures ClassifyDiscontinuity(
      setting.root, Some(Evaluate(setting, journeys, e).value), Evaluate(setting, journeys, f).value) == None
  {
    if e <= f {
      EvaluatesNear(setting, journeys, e, f);
    } else {
      EvaluatesNear(setting, journeys, f, e);
    }
    NearIsNoJump(setting, Evaluate(setting, journeys, e).value, Evaluate(setting, journeys, f).value);
  }

  /** Two states on one leg, the second no more than a second earlier. */
  ghost predicate Near(setting: Setting, s: State, t: State) {
    var delta := t.effectiveSecond - s.effectiveSecond;
    && s.leg == t.leg && s.leg != NotOnRoute && -1.0 <= delta <= GAME_DAY_SECONDS
    && (if delta >= 0.0 then NearOnTheLeg(setting, s, t, delta) else NearOnTheLeg(setting, t, s, -delta))
  }

  lemma NearBothWays(setting: Setting, s: State, t: State)
    requires s.leg == t.leg && s.leg != NotOnRoute && 0.0 <= t.effectiveSecond - s.effectiveSecond <= GAME_DAY_SECONDS
    requires NearOnTheLeg(setting, s, t, t.effectiveSecond - s.effectiveSecond)
    ensures Near(setting, s, t) && (t.effectiveSecond - s.effectiveSecond <= 1.0 ==> Near(setting, t, s))
  {
    GroundIsSymmetric(setting.root, s.position, t.position);
  }

  lemma GroundIsSymmetric(root: Root, a: Vector3, b: Vector3)
    ensures HorizontalDistance(root, a, b) == HorizontalDistance(root, b, a)
  {
    SquareOfNegative(a.x - b.x);
    SquareOfNegative(a.z - b.z);
    assert Square(a.x - b.x) == Square(b.x - a.x) && Square(a.z - b.z) == Square(b.z - a.z);
  }

  lemma NearIsNoJump(setting: Setting, s: State, t: State)
    requires Near(setting, s, t)
    ensures ClassifyDiscontinuity(setting.root, Some(s), t) == None
  {
    var delta := t.effectiveSecond - s.effectiveSecond;
    GroundIsSymmetric(setting.root, s.position, t.position);
    SpeedsOrder(s.speed, if delta >= 0.0 then delta else -delta, Larger(1.0, PlausibleDelta(s, t)));
  }

  lemma EvaluatesNear(setting: Setting, journeys: seq<Journey>, e: real, f: real)
    requires IsRoot(setting.root) && SameDay(e, f) && e <= f
    requires Evaluate(setting, journeys, e).Some? && Evaluate(setting, journeys, f).Some?
    requires
      var s, t := Evaluate(setting, journeys, e).value, Evaluate(setting, journeys, f).value;
      s.leg == t.leg && s.leg != NotOnRoute
    ensures
      var s, t := Evaluate(setting, journeys, e).value, Evaluate(setting, journeys, f).value;
      Near(setting, s, t) && (f - e <= 1.0 ==> Near(setting, t, s))
  {
    var near, far := NormalizedSecond(e), NormalizedSecond(f);
    var j, k := JourneyAt(journeys, |journeys|, near), JourneyAt(journeys, |journeys|, far);
    SecondsOfOneDay(e, f);
    TravelsNear(
      setting, journeys, j.value, k.value, e, f, near, far, Evaluate(setting, journeys, e).value, Evaluate(setting, journeys, f).value);
  }

  lemma TravelsNear(
    setting: Setting, journeys: seq<Journey>, j: nat, k: nat, e: real, f: real, near: real, far: real, s: State, t: State)
    requires IsRoot(setting.root) && j < |journeys| && k < |journeys| && 0.0 <= far - near == f - e <= GAME_DAY_SECONDS
    requires Travel(setting, j, journeys[j].start, journeys[j].operations, e, near) == Some(s)
    requires Travel(setting, k, journeys[k].start, journeys[k].operations, f, far) == Some(t)
    requires s.leg == t.leg && s.leg != NotOnRoute
    ensures Near(setting, s, t) && (f - e <= 1.0 ==> Near(setting, t, s))
  {
    TravelCarries(setting, j, journeys[j].start, journeys[j].operations, e, near);
    TravelCarries(setting, k, journeys[k].start, journeys[k].operations, f, far);
    TravelTwice(setting, j, journeys[j].start, journeys[j].operations, e, f, near, far);
    NearBothWays(setting, s, t);
  }
}
