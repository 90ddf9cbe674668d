/** When an operation of a schedule is over, and that a day only goes on (internal/npc/interpreter.go, internal/npc/secondary.go). */
module NpcOperations {
  import opened Common
  import opened NpcRoute
  import opened NpcCircuit
  import opened NpcSchedule

  // ---------- When an operation is over ----------

  /** The second that an operation lasts to when it does not walk, if it begins at `now`. */
  function LastsTo(action: Action, now: real): (t: real)
    requires action.Wait? || action.Gate? || action.TimeControl?
  {
    match action
    case Wait(duration) => now + duration
    case Gate(release) => release
    case TimeControl(value) => if value < 0.0 then now + -value else if value > now then value else now
  }

  /** Waiting ends at its second, not before, and the next operation begins then, however late it is; only gates without a time fail. */
  lemma WaitingEndsOnTime(
    setting: Setting, journey: nat, start: real, index: nat, operation: Operation, c: Cursor, second: real)
    requires operation.action.Wait? || operation.action.Gate? || operation.action.TimeControl?
    ensures
      var r, end := Perform(setting, journey, start, index, operation, c, second), LastsTo(operation.action, c.descriptor);
      && (r.Fails? <==> operation.action.Gate? && end <= 0.0)
      && (r.Goes? <==> second >= end && !r.Fails?)
      && (r.Goes? ==> r.cursor == Arrive(c, operation).(descriptor := end))
      && (r.Stops? ==> r.state == Finish(Arrive(c, operation).state.(mode := Waiting), c.active))
  {
  }

  /** What takes no time is over at once, and leaves the clock alone. */
  lemma OthersTakeNoTime(
    setting: Setting, journey: nat, start: real, index: nat, operation: Operation, c: Cursor, second: real)
    requires match operation.action
      case EnterArea(_) => true case PlaceAt(_) => true case Lifecycle(_) => true
      case Secondary(_) => true case Appearance(_) => true case _ => false
    ensures
      var r := Perform(setting, journey, start, index, operation, c, second);
      r.Goes? && r.cursor.descriptor == c.descriptor
  {
  }

  /** The pace of a route: its own step or the actor's, thirty times a second, in game time. */
  lemma PaceIsByStepAndRate(setting: Setting, step: real)
    ensures
      var pace, speed := if step > 0.0 then step else setting.defaultStep, RouteSpeed(setting, step);
      if pace > 0.0 && setting.rate > 0.0 then speed > 0.0 && speed == Times(pace, setting.rate) * 30.0 else speed == 0.0
  {
    if step > 0.0 && setting.rate > 0.0 {
      ProductIsPositive(step, setting.rate);
    } else if setting.defaultStep > 0.0 && setting.rate > 0.0 {
      ProductIsPositive(setting.defaultStep, setting.rate);
    }
  }

  lemma QuotientOrder(distance: real, speed: real, elapsed: real)
    requires speed > 0.0
    ensures Times(elapsed, speed) > distance <==> elapsed > distance / speed
  {
    QuotientTimes(distance, speed);
    var over := elapsed - distance / speed;
    assert Times(over, speed) == Times(elapsed, speed) - Times(distance / speed, speed);
    ProductIsPositive(if over >= 0.0 then over else -over, speed);
    assert Times(-over, speed) == -Times(over, speed);
  }

  /** A route is left once its length has been walked, at its end and at the time that takes; until then its actor is as far along as its pace brings it. */
  lemma RouteEndsOnTime(setting: Setting, c: Cursor, points: seq<Vector3>, since: real, second: real, speed: real, leg: Leg)
    requires IsRoot(setting.root) && points != [] && speed > 0.0
    ensures
      var r, length := FollowRoute(setting, c, points, since, second - since, speed, leg), RouteLength(setting.root, points);
      var end := since + length / speed;
      && (r.Goes? <==> second > end) && !r.Fails?
      && (r.Goes? ==> r.cursor == c.(
            state := c.state.(position := points[|points| - 1], hasPosition := true), descriptor := end))
      && (r.Stops? && c.active ==>
            && r.state.mode == Walking && r.state.routeDistance == Times(second - since, speed) && r.state.routeLength == length
            && r.state.position == Sample(setting.root, points, Times(second - since, speed)).value.position)
  {
    QuotientOrder(RouteLength(setting.root, points), speed, second - since);
  }

  lemma QuotientIsPositive(length: real, speed: real)
    requires length >= 0.0 && speed > 0.0
    ensures length / speed >= 0.0
  {
  }

  /** A walk is left when its route has been walked from the end of what came before; one without a route or a pace is never left. */
  lemma WalksEndOnTime(setting: Setting, journey: nat, start: real, index: nat, operation: Operation, c: Cursor, second: real)
    requires IsRoot(setting.root) && operation.action.Walk?
    ensures
      var r, speed := Perform(setting, journey, start, index, operation, c, second), RouteSpeed(setting, operation.action.step);
      if operation.action.points == [] || speed == 0.0 then r.Stops? && r.state.mode == Hidden && r.state.world == ""
      else
        var end := c.descriptor + RouteLength(setting.root, operation.action.points) / speed;
        (r.Goes? <==> second > end) && !r.Fails? && (r.Goes? ==> r.cursor.descriptor == end)
  {
    var speed, points := RouteSpeed(setting, operation.action.step), operation.action.points;
    if points != [] && speed > 0.0 {
      LengthIsNotNegative(setting.root, points);
      QuotientIsPositive(RouteLength(setting.root, points), speed);
      QuotientOrder(RouteLength(setting.root, points), speed, Clamped(second - c.descriptor));
    }
  }

  lemma LengthIsNotNegative(root: Root, points: seq<Vector3>)
    requires IsRoot(root)
    ensures RouteLength(root, points) >= 0.0
  {
    if points != [] { PrefixIsNotNegative(root, points, |points| - 1); }
  }

  lemma {:induction false} PrefixIsNotNegative(root: Root, points: seq<Vector3>, n: nat)
    requires IsRoot(root) && n < |points|
    ensures PrefixLength(root, points, n) >= 0.0
  {
    if n > 0 {
      PrefixIsNotNegative(root, points, n - 1);
      DistanceIsPositive(root, points[n - 1], points[n]);
    }
  }

  /** What an object activates stands until its activation, which is never earlier than the minimum delay into the journey. */
  lemma ActivationsAreOnTime(setting: Setting, journey: nat, start: real, index: nat, operation: Operation, c: Cursor, second: real)
    requires operation.action.Activate?
    ensures
      var r, a := Perform(setting, journey, start, index, operation, c, second), operation.action;
      var asked := if a.activation < 0.0 then start + -a.activation else a.activation;
      var free := second >= asked && second >= start + a.minimumDelay;
      && (!free ==> r.Stops? && r.state.mode == if c.active then Waiting else Hidden)
      && (free && a.controller == [] && a.handoff == [] ==>
            && r.Goes? && r.cursor.descriptor == c.descriptor
            && r.cursor.state.hasPosition == a.linked.Some?
            && (a.linked.Some? ==> r.cursor.state.position == a.linked.value))
  {
  }

  /** One that is activated walks its controller from the activation on, and its handoff from the end of that. */
  lemma ActivatedActorsHandOffOnTime(
    setting: Setting, journey: nat, start: real, index: nat, operation: Operation, c: Cursor, second: real)
    requires IsRoot(setting.root) && operation.action.Activate? && RouteSpeed(setting, 0.0) > 0.0
    requires operation.action.controller != []
    ensures
      var r, a, speed := Perform(setting, journey, start, index, operation, c, second), operation.action, RouteSpeed(setting, 0.0);
      var free := NotBefore(start, a.activation, a.minimumDelay);
      var there := free + RouteLength(setting.root, a.controller) / speed;
      var end := if a.handoff == [] then there else there + RouteLength(setting.root, a.handoff) / speed;
      && !r.Fails? && (r.Goes? <==> second > end)
      && (r.Goes? ==> r.cursor.descriptor == end && r.cursor.state.position == EndOf(if a.handoff == [] then a.controller else a.handoff))
  {
    var a, speed := operation.action, RouteSpeed(setting, 0.0);
    var free, here := NotBefore(start, a.activation, a.minimumDelay), Arrive(c, operation);
    LengthIsNotNegative(setting.root, a.controller);
    QuotientIsPositive(RouteLength(setting.root, a.controller), speed);
    LengthIsNotNegative(setting.root, a.handoff);
    QuotientIsPositive(RouteLength(setting.root, a.handoff), speed);
    RouteEndsOnTime(setting, here, a.controller, free, second, speed, OnRoute(journey, index, Controller));
    if a.handoff != [] && second >= free {
      var arrived := ReachHandoff(setting, a, here, second, free, speed, OnRoute(journey, index, Controller));
      if arrived.Goes? {
        RouteEndsOnTime(
          setting, arrived.cursor, a.handoff, arrived.cursor.descriptor, second, speed, OnRoute(journey, index, Handoff));
      }
    }
  }

  // ---------- What an operation does ----------

  /** What a schedule makes of its actor; nothing else changes. */
  lemma OperationsDoAsTheySay(
    setting: Setting, journey: nat, start: real, index: nat, operation: Operation, c: Cursor, second: real)
    ensures
      var r, here := Perform(setting, journey, start, index, operation, c, second), Arrive(c, operation);
      && (operation.action.EnterArea? ==>
            var area := operation.action.area;
            r == Goes(here.(state := here.state.(area := area, world := if area in setting.worlds then setting.worlds[area] else ""))))
      && (operation.action.PlaceAt? && operation.action.position.Some? ==>
            r == Goes(here.(state := here.state.(position := operation.action.position.value, hasPosition := true, mode := Acting))))
      && (operation.action.Lifecycle? ==> r == Goes(here.(active := operation.action.active)))
      && (operation.action.Vanish? ==> r.Stops? && Unseen(r.state))
      && (operation.action.Rest? && c.active ==> r == Stops(here.state.(mode := Acting)))
  {
  }

  /** An operation comes with its number, and puts its actor where its own figure stands. */
  lemma ArrivingIsSeen(c: Cursor, operation: Operation)
    ensures
      var here := Arrive(c, operation);
      && here.state.operation == operation.code && here.descriptor == c.descriptor && here.active == c.active
      && (operation.placement.Some? ==> here.state.position == operation.placement.value && here.state.hasPosition)
      && (operation.placement.None? ==> here.state == c.state.(operation := operation.code))
  {
  }

  predicate Unseen(state: State) {
    state.mode == Hidden && state.world == "" && !state.hasPosition && state.leg == NotOnRoute
  }

  /** A turn of an actor that is not active: where it stops it is not seen. */
  predicate StaysUnseen(r: Turn) {
    (r.Stops? ==> Unseen(r.state)) && (r.Goes? ==> !r.cursor.active)
  }

  lemma RoutesStayUnseen(setting: Setting, c: Cursor, points: seq<Vector3>, since: real, elapsed: real, speed: real, leg: Leg)
    requires !c.active && points != [] && speed >= 0.0
    ensures StaysUnseen(FollowRoute(setting, c, points, since, elapsed, speed, leg))
  {
  }

  lemma ActivationsStayUnseen(setting: Setting, journey: nat, start: real, index: nat, action: Action, c: Cursor, second: real)
    requires !c.active && action.Activate?
    ensures StaysUnseen(PerformActivate(setting, journey, start, index, action, c, second))
  {
    var speed, free := RouteSpeed(setting, 0.0), NotBefore(start, action.activation, action.minimumDelay);
    if action.controller != [] {
      RoutesStayUnseen(setting, c, action.controller, free, second - free, speed, OnRoute(journey, index, Controller));
    }
    var arrived := ReachHandoff(setting, action, c, second, free, speed, OnRoute(journey, index, Controller));
    if arrived.Goes? && action.handoff != [] {
      var since := arrived.cursor.descriptor;
      RoutesStayUnseen(setting, arrived.cursor, action.handoff, since, second - since, speed, OnRoute(journey, index, Handoff));
    }
  }

  lemma WalksStayUnseen(setting: Setting, journey: nat, index: nat, action: Action, c: Cursor, second: real)
    requires !c.active && action.Walk?
    ensures StaysUnseen(PerformWalk(setting, journey, index, action, c, second))
  {
  }

  /** Who is not active is not seen, whatever it is doing. */
  lemma InactiveActorsAreNotSeen(
    setting: Setting, journey: nat, start: real, index: nat, operation: Operation, c: Cursor, second: real)
    requires !c.active && operation.action != Lifecycle(true)
    ensures StaysUnseen(Perform(setting, journey, start, index, operation, c, second))
  {
    var here := Arrive(c, operation);
    if operation.action.Activate? {
      ActivationsStayUnseen(setting, journey, start, index, operation.action, here, second);
    } else if operation.action.Walk? {
      WalksStayUnseen(setting, journey, index, operation.action, here, second);
    }
  }

  /** A walk is in the area it names, or goes on where its actor is. */
  lemma WalksAreInTheirArea(setting: Setting, journey: nat, start: real, index: nat, operation: Operation, c: Cursor, second: real)
    requires operation.action.Walk? && operation.action.points != [] && RouteSpeed(setting, operation.action.step) > 0.0
    ensures
      var r, area := Perform(setting, journey, start, index, operation, c, second), operation.action.area;
      var world := if area == "" then c.state.world else if area in setting.worlds then setting.worlds[area] else "";
      && (r.Goes? ==> r.cursor.state.area == area && r.cursor.state.world == world)
      && (r.Stops? && c.active ==> r.state.area == area && r.state.world == world)
  {
  }

  // ---------- Where a day begins ----------

  /** Before its first journey an actor is nowhere; each journey begins in its own area, at its own second. */
  lemma DaysBeginNowhere(setting: Setting, journeys: seq<Journey>, effective: real)
    requires 0.0 <= effective < 86400.0 && forall j :: 0 <= j < |journeys| ==> effective < journeys[j].start
    ensures
      var r := Evaluate(setting, journeys, effective);
      r.Some? && Unseen(r.value) && r.value.effectiveSecond == effective
  {
    DayOfTime(effective);
  }

  lemma DayOfTime(effective: real)
    requires 0.0 <= effective < 86400.0
    ensures NormalizedSecond(effective) == effective
  {
    assert (effective / 86400.0).Floor == 0;
  }

  /** Time of day is what is left of whole days. */
  lemma DaysAreAlike(effective: real, days: int)
    ensures NormalizedSecond(effective + days as real * 86400.0) == NormalizedSecond(effective)
    ensures 0.0 <= NormalizedSecond(effective) < 86400.0
  {
    assert (effective + days as real * 86400.0) / 86400.0 == effective / 86400.0 + days as real;
    FloorShifts(effective / 86400.0, days);
  }

  lemma JourneysBegin(setting: Setting, start: real, effective: real)
    ensures
      var c, area := Departure(setting, start, effective), setting.defaultArea;
      && c.descriptor == start && c.active && c.state.area == area && c.state.mode == Acting && !c.state.hasPosition
      && c.state.world == (if area != "" && area in setting.worlds then setting.worlds[area] else "")
      && c.state.leg == NotOnRoute && c.state.effectiveSecond == effective
  {
  }

  lemma LastStartedIsFound(journeys: seq<Journey>, second: real, j: nat)
    requires j < |journeys| && journeys[j].start <= second && forall k :: j < k < |journeys| ==> second < journeys[k].start
    ensures JourneyAt(journeys, |journeys|, second) == Some(j)
  {
    var found := JourneyAt(journeys, |journeys|, second);
    assert found.Some? && found.value <= j;
  }

  lemma WithoutRoundsOperationsAreFollowed(
    setting: Setting, journey: nat, start: real, operations: seq<Operation>, effective: real, second: real)
    requires Circle(setting, journey, start, operations, second) == None
    ensures
      Travel(setting, journey, start, operations, effective, second)
      == Follow(setting, journey, start, operations, 0, Departure(setting, start, effective), second)
  {
  }

  /** The journey of a time of day is the last of the list that has started by then. */
  lemma LastStartedJourneyIsFollowed(setting: Setting, journeys: seq<Journey>, effective: real, j: nat)
    requires 0.0 <= effective < 86400.0 && j < |journeys| && journeys[j].start <= effective
    requires forall k :: j < k < |journeys| ==> effective < journeys[k].start
    requires Circle(setting, j, journeys[j].start, journeys[j].operations, effective) == None
    ensures
      Evaluate(setting, journeys, effective)
      == Follow(setting, j, journeys[j].start, journeys[j].operations, 0, Departure(setting, journeys[j].start, effective), effective)
  {
    DayOfTime(effective);
    LastStartedIsFound(journeys, effective, j);
    WithoutRoundsOperationsAreFollowed(setting, j, journeys[j].start, journeys[j].operations, effective, effective);
  }

  // ---------- A day only goes on ----------

  lemma RouteIsLeftForGood(
    setting: Setting, c: Cursor, points: seq<Vector3>, since: real, near: real, far: real, speed: real, leg: Leg)
    requires points != [] && speed >= 0.0 && near <= far && FollowRoute(setting, c, points, since, near, speed, leg).Goes?
    ensures FollowRoute(setting, c, points, since, far, speed, leg) == FollowRoute(setting, c, points, since, near, speed, leg)
  {
    ProductIsPositive(far - near, speed);
    assert Times(far - near, speed) == Times(far, speed) - Times(near, speed);
  }

  lemma ActivationIsLeftForGood(setting: Setting, journey: nat, start: real, index: nat, action: Action, c: Cursor, near: real, far: real)
    requires action.Activate? && near <= far && PerformActivate(setting, journey, start, index, action, c, near).Goes?
    ensures
      PerformActivate(setting, journey, start, index, action, c, far) == PerformActivate(setting, journey, start, index, action, c, near)
  {
    var speed, free := RouteSpeed(setting, 0.0), NotBefore(start, action.activation, action.minimumDelay);
    if action.controller != [] {
      RouteIsLeftForGood(
        setting, c, action.controller, free, near - free, far - free, speed, OnRoute(journey, index, Controller));
    }
    var arrived := ReachHandoff(setting, action, c, near, free, speed, OnRoute(journey, index, Controller));
    assert arrived == ReachHandoff(setting, action, c, far, free, speed, OnRoute(journey, index, Controller));
    if action.handoff != [] {
      var since := arrived.cursor.descriptor;
      RouteIsLeftForGood(
        setting, arrived.cursor, action.handoff, since, near - since, far - since, speed, OnRoute(journey, index, Handoff));
    }
  }

  /** An operation that is over is over in the same way at every later second. */
  lemma OperationIsLeftForGood(
    setting: Setting, journey: nat, start: real, index: nat, operation: Operation, c: Cursor, near: real, far: real)
    requires near <= far && Perform(setting, journey, start, index, operation, c, near).Goes?
    ensures
      Perform(setting, journey, start, index, operation, c, far) == Perform(setting, journey, start, index, operation, c, near)
  {
    var here := Arrive(c, operation);
    if operation.action.Walk? {
      var action := operation.action;
      var world := if action.area != "" then WorldOf(setting, action.area) else here.state.world;
      RouteIsLeftForGood(
        setting, here.(state := here.state.(area := action.area, world := world)), action.points, here.descriptor,
        Clamped(near - here.descriptor), Clamped(far - here.descriptor), RouteSpeed(setting, action.step),
        OnRoute(journey, index, Primary));
    } else if operation.action.Activate? {
      ActivationIsLeftForGood(setting, journey, start, index, operation.action, here, near, far);
    }
  }

  /** The operation that a journey has come to by a second; its length when it is through. */
  function Reached(setting: Setting, journey: nat, start: real, operations: seq<Operation>, index: nat, c: Cursor, second: real)
    : (n: nat)
    requires index <= |operations|
    ensures index <= n <= |operations|
    decreases |operations| - index
  {
    if index == |operations| then index
    else
      var turn := Perform(setting, journey, start, index, operations[index], c, second);
      if turn.Goes? then Reached(setting, journey, start, operations, index + 1, turn.cursor, second) else index
  }

  /** As the day goes on, no journey goes back to an earlier operation. */
  lemma {:induction false} JourneysOnlyGoOn(
    setting: Setting, journey: nat, start: real, operations: seq<Operation>, index: nat, c: Cursor, near: real, far: real)
    requires index <= |operations| && near <= far
    ensures
      Reached(setting, journey, start, operations, index, c, near) <= Reached(setting, journey, start, operations, index, c, far)
    decreases |operations| - index
  {
    if index < |operations| {
      var turn := Perform(setting, journey, start, index, operations[index], c, near);
      if turn.Goes? {
        OperationIsLeftForGood(setting, journey, start, index, operations[index], c, near, far);
        JourneysOnlyGoOn(setting, journey, start, operations, index + 1, turn.cursor, near, far);
      }
    }
  }

  // ---------- Rounds ----------

  lemma {:induction false} ShiftedByLaps(elapsed: real, cycle: real, laps: int)
    requires cycle > 0.0
    ensures
      var later := elapsed + Times(laps as real, cycle);
      LapOf(later, cycle) == LapOf(elapsed, cycle) + laps && SinceLap(later, cycle) == SinceLap(elapsed, cycle)
  {
    var later := elapsed + Times(laps as real, cycle);
    QuotientTimes(elapsed, cycle);
    QuotientTimes(later, cycle);
    SameQuotient(elapsed, cycle, laps as real);
    FloorShifts(elapsed / cycle, laps);
    ProductSum(LapOf(elapsed, cycle) as real, laps as real, cycle);
    assert LapOf(later, cycle) as real == LapOf(elapsed, cycle) as real + laps as real;
  }

  lemma ProductSum(a: real, b: real, c: real)
    ensures Times(a + b, c) == Times(a, c) + Times(b, c)
  {
  }

  lemma SameQuotient(a: real, c: real, n: real)
    requires c > 0.0
    ensures (a + Times(n, c)) / c == a / c + n
  {
    QuotientTimes(a, c);
    ProductSum(a / c, n, c);
    QuotientOfProduct(a / c + n, c);
  }

  lemma QuotientOfProduct(q: real, c: real)
    requires c > 0.0
    ensures Times(q, c) / c == q
  {
  }

  lemma FloorShifts(x: real, n: int)
    ensures (x + n as real).Floor == x.Floor + n
  {
  }

  /** Every time round is the same: one cycle later the actor is in the same place, one lap on. */
  lemma RoundsRepeat(setting: Setting, journey: nat, area: string, phases: seq<Phase>, cycle: real, elapsed: real, laps: int)
    requires phases != [] && cycle > 0.0 && forall p :: p in phases ==> Walkable(p.track)
    ensures
      var s := GoRound(setting, journey, area, phases, cycle, elapsed);
      var t := GoRound(setting, journey, area, phases, cycle, elapsed + Times(laps as real, cycle));
      && s.Some? == t.Some?
      && (s.Some? ==> s.value.leg.OnCircuit? && t.value == s.value.(leg := s.value.leg.(lap := s.value.leg.lap + laps)))
  {
    ShiftedByLaps(elapsed, cycle, laps);
  }

  predicate EnteredLast(operations: seq<Operation>, k: nat, area: string) {
    && k < |operations| && operations[k].action == EnterArea(area)
    && forall j :: k < j < |operations| ==> !operations[j].action.EnterArea?
  }

  /** Rounds are in the area that the journey enters last, or in the actor's own if it enters none. */
  lemma {:induction false} RoundsAreInTheAreaEnteredLast(area: string, operations: seq<Operation>)
    ensures
      || (LastArea(area, operations) == area && forall k :: 0 <= k < |operations| ==> !operations[k].action.EnterArea?)
      || (exists k: nat :: EnteredLast(operations, k, LastArea(area, operations)))
  {
    if operations != [] {
      var front, last := operations[..|operations| - 1], operations[|operations| - 1];
      if last.action.EnterArea? {
        assert EnteredLast(operations, |operations| - 1, last.action.area);
      } else {
        RoundsAreInTheAreaEnteredLast(area, front);
        if k: nat :| EnteredLast(front, k, LastArea(area, front)) {
          assert EnteredLast(operations, k, LastArea(area, operations));
        }
      }
    }
  }

  /** They begin with the journey, at the start of the first round's track, and go on in real time. */
  lemma RoundsBeginWithTheJourney(setting: Setting, journey: nat, start: real, operations: seq<Operation>, second: real)
    requires IsRoot(setting.root) && second <= start && Circle(setting, journey, start, operations, second).Some?
    ensures
      var s := Circle(setting, journey, start, operations, second).value;
      && s.leg == OnCircuit(journey, 0, 0) && s.routeDistance == 0.0 && s.mode == Walking && s.world != ""
  {
    var rounds := RoundsOf(operations);
    var phases := Phases(setting.root, rounds, |rounds|);
    assert Elapsed(setting, start, second) == Times(0.0, setting.rate) == 0.0;
    FirstPhase(setting.root, rounds, |rounds|);
    LengthIsNotNegative(setting.root, rounds[0].track.points);
    QuotientIsPositive(RouteLength(setting.root, rounds[0].track.points), Speed(rounds[0].track));
    NoTimeYet(CycleTime(phases));
    assert Times(0.0, Speed(rounds[0].track)) == 0.0;
  }

  lemma NoTimeYet(cycle: real)
    requires cycle > 0.0
    ensures LapOf(0.0, cycle) == 0 && SinceLap(0.0, cycle) == 0.0
  {
    assert 0.0 / cycle == 0.0;
    assert Times(0.0, cycle) == 0.0;
  }

  lemma {:induction false} FirstPhase(root: Root, rounds: seq<Round>, n: nat)
    requires 0 < n <= |rounds| && forall r :: r in rounds ==> Walkable(r.track)
    ensures
      var phases := Phases(root, rounds, n);
      phases[0] == Phase(rounds[0].track, false, WalkingTime(root, rounds[0].track))
  {
    if n > 1 { FirstPhase(root, rounds, n - 1); }
  }

  lemma ShownInItsPhase(setting: Setting, area: string, phase: Phase, within: real, leg: Leg)
    requires Walkable(phase.track) && Around(setting, area, phase, within, leg).Some?
    ensures
      var s := Around(setting, area, phase, within, leg).value;
      && s.leg == leg && s.mode == (if phase.pauses then Acting else Walking)
      && s.routeDistance == Covered(setting.root, phase, within) && s.secondaryObject == phase.track.objectCode
      && s.speed == Times(phase.track.step * 30.0, setting.rate)
  {
  }

  lemma CirclesGoRound(setting: Setting, journey: nat, start: real, operations: seq<Operation>, second: real)
    requires Circle(setting, journey, start, operations, second).Some?
    ensures
      var phases := Phases(setting.root, RoundsOf(operations), |RoundsOf(operations)|);
      && phases != [] && CycleTime(phases) > 0.0
      && Circle(setting, journey, start, operations, second)
         == GoRound(
              setting, journey, LastArea(setting.defaultArea, operations), phases, CycleTime(phases), Elapsed(setting, start, second))
  {
  }

  /** What an actor on its rounds is shown as, so long after they began. */
  predicate InItsRound(setting: Setting, journey: nat, phases: seq<Phase>, cycle: real, elapsed: real, s: State)
    requires phases != [] && cycle > 0.0
  {
    var spot := SpotFrom(phases, 0, SinceLap(elapsed, cycle));
    var phase := phases[spot.phase];
    && s.leg == OnCircuit(journey, LapOf(elapsed, cycle), spot.phase) && s.mode == (if phase.pauses then Acting else Walking)
    && s.routeDistance == Covered(setting.root, phase, spot.within) && s.secondaryObject == phase.track.objectCode
    && s.speed == Times(phase.track.step * 30.0, setting.rate)
  }

  lemma ShownInItsRound(setting: Setting, journey: nat, area: string, phases: seq<Phase>, cycle: real, elapsed: real)
    requires phases != [] && cycle > 0.0 && forall p :: p in phases ==> Walkable(p.track)
    requires GoRound(setting, journey, area, phases, cycle, elapsed).Some?
    ensures InItsRound(setting, journey, phases, cycle, elapsed, GoRound(setting, journey, area, phases, cycle, elapsed).value)
  {
    var spot := SpotFrom(phases, 0, SinceLap(elapsed, cycle));
    ShownInItsPhase(setting, area, phases[spot.phase], spot.within, OnCircuit(journey, LapOf(elapsed, cycle), spot.phase));
  }

  /** Where an actor has come to in real time since the journey's start. */
  lemma RoundsGoOnInRealTime(setting: Setting, journey: nat, start: real, operations: seq<Operation>, second: real)
    requires second >= start && Circle(setting, journey, start, operations, second).Some?
    ensures
      var s := Circle(setting, journey, start, operations, second).value;
      var phases := Phases(setting.root, RoundsOf(operations), |RoundsOf(operations)|);
      && phases != [] && CycleTime(phases) > 0.0
      && InItsRound(setting, journey, phases, CycleTime(phases), Times(second - start, setting.rate), s)
  {
    CirclesGoRound(setting, journey, start, operations, second);
    ShownInItsRound(
      setting, journey, LastArea(setting.defaultArea, operations),
      Phases(setting.root, RoundsOf(operations), |RoundsOf(operations)|),
      CycleTime(Phases(setting.root, RoundsOf(operations), |RoundsOf(operations)|)), Elapsed(setting, start, second));
  }

  /** How long the first `n` phases from `index` on last. */
  function Lasting(phases: seq<Phase>, index: nat, n: nat): (t: real)
    requires index + n <= |phases|
    decreases n
  {
    if n == 0 then 0.0 else phases[index].duration + Lasting(phases, index + 1, n - 1)
  }

  /** A spot lies in its phase, after all phases before it. */
  lemma {:induction false} SpotFollowsEarlierPhases(phases: seq<Phase>, index: nat, elapsed: real)
    requires phases != [] && index < |phases| && 0.0 <= elapsed <= Lasting(phases, index, |phases| - index)
    ensures
      var spot := SpotFrom(phases, index, elapsed);
      && index <= spot.phase && 0.0 <= spot.within <= phases[spot.phase].duration
      && elapsed == Lasting(phases, index, spot.phase - index) + spot.within
    decreases |phases| - index
  {
    if elapsed > phases[index].duration && index + 1 < |phases| {
      SpotFollowsEarlierPhases(phases, index + 1, elapsed - phases[index].duration);
    }
  }

  /** A phase that walks comes to the end of its track just as it ends; one that pauses is there all the time. */
  lemma PhasesEndAtTheirTracksEnd(root: Root, round: Round, last: bool)
    requires IsRoot(root) && Walkable(round.track)
    ensures
      var phases := PhasesOf(root, round, last);
      && |phases| == (if HandsOff(root, round) then 3 else 2)
      && phases[0].track == phases[1].track == round.track && (|phases| == 3 ==> phases[2].track == round.handoff)
      && (forall p :: p in phases ==> Covered(root, p, p.duration) == RouteLength(root, p.track.points))
      && Covered(root, phases[0], 0.0) == 0.0
      && Covered(root, phases[1], 0.0) == RouteLength(root, round.track.points)
      && phases[1].duration == (if last then 3.0 else 2.0) / 30.0
  {
    LengthIsNotNegative(root, round.track.points);
    QuotientTimes(RouteLength(root, round.track.points), Speed(round.track));
    if HandsOff(root, round) {
      QuotientTimes(RouteLength(root, round.handoff.points), Speed(round.handoff));
    }
    assert Times(0.0, Speed(round.track)) == 0.0;
  }
}
