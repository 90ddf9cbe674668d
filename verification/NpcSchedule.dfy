/**
 * Where a schedule puts an actor at a given second of its day, and which jumps are announced
 * (internal/npc/interpreter.go, internal/npc/secondary.go, internal/npc/transitions.go).
 */
module NpcSchedule {
  import opened Common
  import opened NpcRoute
  import opened NpcCircuit

  const GAME_DAY_SECONDS := 86400.0

  datatype Mode = Hidden | Walking | Waiting | Acting | Blocked

  datatype Part = Primary | Controller | Handoff

  /** The operation of which journey an actor walks, and which of its routes; or the phase of its rounds, and which time round. */
  datatype Leg =
    | NotOnRoute
    | OnRoute(journey: nat, operation: nat, part: Part)
    | OnCircuit(journey: nat, lap: int, phase: nat)

  datatype State = State(
    area: string, world: string, position: Vector3, hasPosition: bool, mode: Mode, operation: int,
    leg: Leg, segment: nat, progress: real, routeDistance: real, routeLength: real,
    speed: real, effectiveSecond: real, secondaryObject: string)
  {
    predicate Visible() {
      world != "" && mode != Hidden && hasPosition
    }
  }

  /** What an operation does; its numeric code is kept for the ones that only concern appearance. */
  datatype Action =
    | EnterArea(area: string)
    | PlaceAt(position: Option<Vector3>)
    | Wait(duration: real)
    | Gate(release: real)
    | TimeControl(value: real)
    | Activate(activation: real, minimumDelay: real, waiting: Option<Vector3>, controller: seq<Vector3>,
               linked: Option<Vector3>, handoff: seq<Vector3>)
    | Walk(area: string, points: seq<Vector3>, step: real)
    | Lifecycle(active: bool)
    | Vanish
    | Rest
    | Secondary(round: Round)
    | Appearance(code: int)

  /** `placement` is the position that the operation's visual part assigns, if any. */
  datatype Operation = Operation(code: int, action: Action, placement: Option<Vector3>)

  datatype Journey = Journey(start: real, operations: seq<Operation>)

  /** The exact square root, the worlds of areas, the actor's own step and the pace of the game clock. */
  datatype Setting = Setting(
    root: Root, worlds: map<string, string>, defaultArea: string, defaultStep: real, rate: real)

  function WorldOf(setting: Setting, area: string): (w: string) {
    if area in setting.worlds then setting.worlds[area] else ""
  }

  function RouteSpeed(setting: Setting, step: real): (speed: real)
    ensures speed >= 0.0
  {
    var pace := if step <= 0.0 then setting.defaultStep else step;
    if pace <= 0.0 || setting.rate <= 0.0 then 0.0
    else
      ProductIsPositive(pace, setting.rate);
      Times(pace, setting.rate) * UPDATES_PER_SECOND
  }

  // ---------- One operation ----------

  /** What a schedule carries from one operation to the next. */
  datatype Cursor = Cursor(state: State, descriptor: real, active: bool)

  datatype Turn = Goes(cursor: Cursor) | Stops(state: State) | Fails

  function Finish(state: State, active: bool): (s: State) {
    if active then state else state.(mode := Hidden, world := "", hasPosition := false, leg := NotOnRoute)
  }

  function Arrive(c: Cursor, operation: Operation): (r: Cursor) {
    var here := c.state.(operation := operation.code);
    c.(state := match operation.placement
                case Some(position) => here.(position := position, hasPosition := true)
                case None => here)
  }

  /** Walking `distance` along `points`. */
  function OnTheWay(setting: Setting, c: Cursor, points: seq<Vector3>, distance: real, speed: real, leg: Leg): (s: State)
    requires points != []
  {
    var sample := Sample(setting.root, points, distance).value;
    Finish(
      c.state.(
        position := sample.position, hasPosition := true, mode := Walking, leg := leg, segment := sample.segment,
        progress := sample.progress, routeDistance := distance, routeLength := RouteLength(setting.root, points), speed := speed),
      c.active)
  }

  function EndOf(points: seq<Vector3>): (v: Vector3)
    requires points != []
  {
    points[|points| - 1]
  }

  function Standing(c: Cursor): (s: State) {
    Finish(c.state.(mode := Waiting), c.active)
  }

  /**
   * Walks one route of an operation from `since` on; the cursor comes out at its end. An actor that
   * cannot move covers no distance, so it never asks how long the whole route takes.
   */
  function FollowRoute(setting: Setting, c: Cursor, points: seq<Vector3>, since: real, elapsed: real, speed: real, leg: Leg): (r: Turn)
    requires points != [] && speed >= 0.0
  {
    var distance, length := Times(elapsed, speed), RouteLength(setting.root, points);
    if distance <= length then Stops(OnTheWay(setting, c, points, distance, speed, leg))
    else if speed == 0.0 then Fails
    else
      Goes(c.(
        state := c.state.(position := EndOf(points), hasPosition := true), descriptor := since + length / speed))
  }

  function ReleaseTime(value: real, descriptor: real): (t: real) {
    if value < 0.0 then descriptor - value else if descriptor < value then value else descriptor
  }

  function NotBefore(start: real, activation: real, minimumDelay: real): (t: real) {
    var at := if activation < 0.0 then start - activation else activation;
    if at < start + minimumDelay then start + minimumDelay else at
  }

  /** How an activated actor comes to where its handoff begins. */
  function ReachHandoff(setting: Setting, action: Action, c: Cursor, second: real, notBefore: real, speed: real, leg: Leg): (r: Turn)
    requires action.Activate? && speed >= 0.0
  {
    if action.controller != [] then FollowRoute(setting, c, action.controller, notBefore, second - notBefore, speed, leg)
    else
      Goes(match action.linked
           case Some(position) => c.(state := c.state.(position := position, hasPosition := true))
           case None => c.(state := c.state.(hasPosition := false)))
  }

  function PerformActivate(setting: Setting, journey: nat, start: real, index: nat, action: Action, c: Cursor, second: real): (r: Turn)
    requires action.Activate?
  {
    var notBefore, speed := NotBefore(start, action.activation, action.minimumDelay), RouteSpeed(setting, 0.0);
    if second < notBefore then
      Stops(Standing(
        match action.waiting
        case Some(position) => c.(state := c.state.(position := position, hasPosition := true))
        case None => c))
    else
      HandOff(
        setting, action, ReachHandoff(setting, action, c, second, notBefore, speed, OnRoute(journey, index, Controller)), second, speed,
        OnRoute(journey, index, Handoff))
  }

  /** An actor that has arrived goes on along its handoff. */
  function HandOff(setting: Setting, action: Action, arrived: Turn, second: real, speed: real, leg: Leg): (r: Turn)
    requires action.Activate? && speed >= 0.0
  {
    if !arrived.Goes? || action.handoff == [] then arrived
    else
      FollowRoute(
        setting, arrived.cursor, action.handoff, arrived.cursor.descriptor, second - arrived.cursor.descriptor, speed, leg)
  }

  function PerformWalk(setting: Setting, journey: nat, index: nat, action: Action, c: Cursor, second: real): (r: Turn)
    requires action.Walk?
  {
    var speed := RouteSpeed(setting, action.step);
    if action.points == [] || speed <= 0.0 then Stops(Finish(c.state.(mode := Hidden, world := ""), c.active))
    else
      var world := if action.area != "" then WorldOf(setting, action.area) else c.state.world;
      FollowRoute(
        setting, c.(state := c.state.(area := action.area, world := world)), action.points, c.descriptor,
        Clamped(second - c.descriptor), speed, OnRoute(journey, index, Primary))
  }

  function Perform(setting: Setting, journey: nat, start: real, index: nat, operation: Operation, before: Cursor, second: real): (r: Turn) {
    var c := Arrive(before, operation);
    match operation.action
    case EnterArea(area) => Goes(c.(state := c.state.(area := area, world := WorldOf(setting, area))))
    case PlaceAt(Some(position)) => Goes(c.(state := c.state.(position := position, hasPosition := true, mode := Acting)))
    case PlaceAt(None) => Goes(c)
    case Wait(duration) =>
      var until := c.(descriptor := c.descriptor + duration);
      if second < until.descriptor then Stops(Standing(c)) else Goes(until)
    case Gate(release) =>
      if release <= 0.0 then Fails
      else if second < release then Stops(Standing(c))
      else Goes(c.(descriptor := release))
    case TimeControl(value) =>
      var release := ReleaseTime(value, c.descriptor);
      if second < release then Stops(Standing(c)) else Goes(c.(descriptor := release))
    case Activate(_, _, _, _, _, _) => PerformActivate(setting, journey, start, index, operation.action, c, second)
    case Walk(_, _, _) => PerformWalk(setting, journey, index, operation.action, c, second)
    case Lifecycle(active) => Goes(c.(active := active))
    case Vanish => Stops(Finish(c.state.(mode := Hidden, world := "", hasPosition := false, leg := NotOnRoute), c.active))
    case Rest => Stops(Finish(c.state.(mode := Acting), c.active))
    case Secondary(_) => Goes(c)
    case Appearance(_) => Goes(c)
  }

  // ---------- The rounds of a secondary controller ----------

  const CIRCUIT := 0x1c

  predicate Rounds(operation: Operation) {
    operation.action.Secondary? && Walkable(operation.action.round.track)
  }

  function RoundsOf(operations: seq<Operation>): (rounds: seq<Round>)
    ensures forall r :: r in rounds ==> Walkable(r.track)
  {
    if operations == [] then []
    else
      var last := operations[|operations| - 1];
      RoundsOf(operations[..|operations| - 1]) + if Rounds(last) then [last.action.round] else []
  }

  /** The area that a journey enters last. */
  function LastArea(area: string, operations: seq<Operation>): (r: string) {
    if operations == [] then area
    else
      match operations[|operations| - 1].action
      case EnterArea(entered) => entered
      case _ => LastArea(area, operations[..|operations| - 1])
  }

  /** The real time that the rounds have gone on for. */
  function Elapsed(setting: Setting, start: real, second: real): (t: real) {
    Times(Clamped(second - start), setting.rate)
  }

  /** Where the rounds of a journey put its actor; nowhere if it has none, or they are in no world. */
  function Circle(setting: Setting, journey: nat, start: real, operations: seq<Operation>, second: real): (r: Option<State>) {
    var rounds := RoundsOf(operations);
    if setting.rate <= 0.0 || rounds == [] then None
    else
      var phases := Phases(setting.root, rounds, |rounds|);
      var cycle := CycleTime(phases);
      if cycle <= 0.0 then None
      else
        GoRound(setting, journey, LastArea(setting.defaultArea, operations), phases, cycle, Elapsed(setting, start, second))
  }

  function GoRound(setting: Setting, journey: nat, area: string, phases: seq<Phase>, cycle: real, elapsed: real): (r: Option<State>)
    requires phases != [] && cycle > 0.0 && forall p :: p in phases ==> Walkable(p.track)
  {
    var spot := SpotFrom(phases, 0, SinceLap(elapsed, cycle));
    Around(setting, area, phases[spot.phase], spot.within, OnCircuit(journey, LapOf(elapsed, cycle), spot.phase))
  }

  function Around(setting: Setting, area: string, phase: Phase, within: real, leg: Leg): (r: Option<State>)
    requires Walkable(phase.track)
  {
    var distance, track := Covered(setting.root, phase, within), phase.track;
    var sample, world := Sample(setting.root, track.points, distance).value, WorldOf(setting, area);
    if world == "" then None
    else
      Some(State(
        area, world, sample.position, true, if phase.pauses then Acting else Walking, CIRCUIT, leg, sample.segment, sample.progress,
        distance, RouteLength(setting.root, track.points), Times(Speed(track), setting.rate), 0.0, track.objectCode))
  }

  // ---------- A journey, and a day ----------

  function Follow(setting: Setting, journey: nat, start: real, operations: seq<Operation>, index: nat, c: Cursor, second: real)
    : (r: Option<State>)
    requires index <= |operations|
    decreases |operations| - index
  {
    if index == |operations| then Some(Finish(c.state, c.active))
    else
      match Perform(setting, journey, start, index, operations[index], c, second)
      case Goes(next) => Follow(setting, journey, start, operations, index + 1, next, second)
      case Stops(state) => Some(state)
      case Fails => None
  }

  function NormalizedSecond(effective: real): (t: real)
    ensures 0.0 <= t < GAME_DAY_SECONDS
  {
    effective - (effective / GAME_DAY_SECONDS).Floor as real * GAME_DAY_SECONDS
  }

  /** The last of the first `n` journeys that has started. */
  function JourneyAt(journeys: seq<Journey>, n: nat, second: real): (j: Option<nat>)
    requires n <= |journeys|
    ensures j.Some? ==> j.value < n && journeys[j.value].start <= second
    ensures forall k :: (if j.Some? then j.value + 1 else 0) <= k < n ==> journeys[k].start > second
  {
    if n == 0 then None
    else if journeys[n - 1].start <= second then Some(n - 1)
    else JourneyAt(journeys, n - 1, second)
  }

  function Nowhere(setting: Setting, effective: real): (s: State) {
    State("", "", ORIGIN, false, Hidden, 0, NotOnRoute, 0, 0.0, 0.0, 0.0, RouteSpeed(setting, 0.0), effective, "")
  }

  function Departure(setting: Setting, start: real, effective: real): (c: Cursor) {
    var world := if setting.defaultArea != "" then WorldOf(setting, setting.defaultArea) else "";
    Cursor(Nowhere(setting, effective).(area := setting.defaultArea, world := world, mode := Acting), start, true)
  }

  function Evaluate(setting: Setting, journeys: seq<Journey>, effective: real): (r: Option<State>) {
    var second := NormalizedSecond(effective);
    match JourneyAt(journeys, |journeys|, second)
    case None => Some(Nowhere(setting, effective))
    case Some(j) => Travel(setting, j, journeys[j].start, journeys[j].operations, effective, second)
  }

  /** A journey with rounds goes round; any other follows its operations. */
  function Travel(setting: Setting, journey: nat, start: real, operations: seq<Operation>, effective: real, second: real): (r: Option<State>) {
    match Circle(setting, journey, start, operations, second)
    case Some(state) => Some(state.(effectiveSecond := effective))
    case None => Follow(setting, journey, start, operations, 0, Departure(setting, start, effective), second)
  }

  // ---------- The interpreter's loop ----------

  method FollowRouteInPlace(
    setting: Setting, c: Cursor, points: seq<Vector3>, since: real, elapsed: real, speed: real, leg: Leg) returns (r: Turn)
    requires points != [] && speed >= 0.0
    ensures r == FollowRoute(setting, c, points, since, elapsed, speed, leg)
  {
    var distance := Times(elapsed, speed);
    var length := MeasureRoute(setting.root, points);
    if distance <= length {
      var sample := SampleRoute(setting.root, points, distance);
      var state := c.state.(
        position := sample.value.position, hasPosition := true, mode := Walking, leg := leg,
        segment := sample.value.segment, progress := sample.value.progress,
        routeDistance := distance, routeLength := length, speed := speed);
      return Stops(Finish(state, c.active));
    }
    if speed == 0.0 { return Fails; }
    return Goes(c.(
      state := c.state.(position := points[|points| - 1], hasPosition := true), descriptor := since + length / speed));
  }

  method EvaluateSchedule(setting: Setting, journeys: seq<Journey>, effective: real) returns (r: Option<State>)
    ensures r == Evaluate(setting, journeys, effective)
  {
    var second := NormalizedSecond(effective);
    var journey := ChooseJourney(journeys, second);
    if journey.None? { return Some(Nowhere(setting, effective)); }
    var start, operations := journeys[journey.value].start, journeys[journey.value].operations;
    var circling := CircleInPlace(setting, journey.value, start, operations, second);
    if circling.Some? { return Some(circling.value.(effectiveSecond := effective)); }
    r := FollowInPlace(setting, journey.value, start, operations, Departure(setting, start, effective), second);
  }

  method ChooseJourney(journeys: seq<Journey>, second: real) returns (j: Option<nat>)
    ensures j == JourneyAt(journeys, |journeys|, second)
  {
    var n: nat := |journeys|;
    while n > 0
      invariant n <= |journeys|
      invariant JourneyAt(journeys, |journeys|, second) == JourneyAt(journeys, n, second)
    {
      if journeys[n - 1].start <= second { return Some(n - 1); }
      n := n - 1;
    }
    return None;
  }

  method FollowInPlace(setting: Setting, journey: nat, start: real, operations: seq<Operation>, departure: Cursor, second: real)
    returns (r: Option<State>)
    ensures r == Follow(setting, journey, start, operations, 0, departure, second)
  {
    var c := departure;
    for index := 0 to |operations|
      invariant Follow(setting, journey, start, operations, index, c, second)
        == Follow(setting, journey, start, operations, 0, departure, second)
    {
      var turn := PerformInPlace(setting, journey, start, index, operations[index], c, second);
      match turn {
        case Goes(next) => c := next;
        case Stops(state) => return Some(state);
        case Fails => return None;
      }
    }
    return Some(Finish(c.state, c.active));
  }

  method CircleInPlace(setting: Setting, journey: nat, start: real, operations: seq<Operation>, second: real)
    returns (r: Option<State>)
    ensures r == Circle(setting, journey, start, operations, second)
  {
    if setting.rate <= 0.0 { return None; }
    var rounds, area := CollectRounds(setting.defaultArea, operations);
    if rounds == [] { return None; }
    var phases, cycle := CollectPhases(setting.root, rounds);
    if cycle <= 0.0 { return None; }
    var elapsed := Times(if second - start < 0.0 then 0.0 else second - start, setting.rate);
    r := GoRoundInPlace(setting, journey, area, phases, cycle, elapsed);
  }

  method GoRoundInPlace(setting: Setting, journey: nat, area: string, phases: seq<Phase>, cycle: real, elapsed: real)
    returns (r: Option<State>)
    requires phases != [] && cycle > 0.0 && forall p :: p in phases ==> Walkable(p.track)
    ensures r == GoRound(setting, journey, area, phases, cycle, elapsed)
  {
    var lap := (elapsed / cycle).Floor;
    var spot := FindSpot(phases, elapsed - Times(lap as real, cycle));
    r := AroundInPlace(setting, area, phases[spot.phase], spot.within, OnCircuit(journey, lap, spot.phase));
  }

  method AroundInPlace(setting: Setting, area: string, phase: Phase, within: real, leg: Leg) returns (r: Option<State>)
    requires Walkable(phase.track)
    ensures r == Around(setting, area, phase, within, leg)
  {
    var length := MeasureRoute(setting.root, phase.track.points);
    var distance := if phase.pauses then length else Min(length, Times(within, Speed(phase.track)));
    var sample := SampleRoute(setting.root, phase.track.points, distance);
    var world := WorldOf(setting, area);
    if world == "" { return None; }
    return Some(State(
      area, world, sample.value.position, true, if phase.pauses then Acting else Walking, CIRCUIT, leg,
      sample.value.segment, sample.value.progress, distance, length, Times(Speed(phase.track), setting.rate), 0.0,
      phase.track.objectCode));
  }

  method CollectRounds(defaultArea: string, operations: seq<Operation>) returns (rounds: seq<Round>, area: string)
    ensures rounds == RoundsOf(operations) && area == LastArea(defaultArea, operations)
  {
    rounds, area := [], defaultArea;
    for n := 0 to |operations|
      invariant rounds == RoundsOf(operations[..n]) && area == LastArea(defaultArea, operations[..n])
    {
      var operation := operations[n];
      assert operations[..n + 1][..n] == operations[..n];
      if operation.action.EnterArea? { area := operation.action.area; }
      if operation.action.Secondary? && operation.action.round.track.points != [] && operation.action.round.track.step > 0.0 {
        rounds := rounds + [operation.action.round];
      }
    }
    assert operations[..|operations|] == operations;
  }

  method PerformInPlace(
    setting: Setting, journey: nat, start: real, index: nat, operation: Operation, before: Cursor, second: real) returns (r: Turn)
    ensures r == Perform(setting, journey, start, index, operation, before, second)
  {
    var state, descriptor, active := before.state.(operation := operation.code), before.descriptor, before.active;
    if operation.placement.Some? {
      state := state.(position := operation.placement.value, hasPosition := true);
    }
    match operation.action {
      case EnterArea(area) =>
        state := state.(area := area, world := WorldOf(setting, area));
      case PlaceAt(position) =>
        if position.Some? { state := state.(position := position.value, hasPosition := true, mode := Acting); }
      case Wait(duration) =>
        descriptor := descriptor + duration;
        if second < descriptor { return Stops(Finish(state.(mode := Waiting), active)); }
      case Gate(release) =>
        if release <= 0.0 { return Fails; }
        if second < release { return Stops(Finish(state.(mode := Waiting), active)); }
        descriptor := release;
      case TimeControl(value) =>
        var release := if value < 0.0 then descriptor - value else if descriptor < value then value else descriptor;
        if second < release { return Stops(Finish(state.(mode := Waiting), active)); }
        descriptor := release;
      case Activate(_, _, _, _, _, _) =>
        r := ActivateInPlace(setting, journey, start, index, operation.action, Cursor(state, descriptor, active), second);
        return;
      case Walk(area, points, step) =>
        var speed := RouteSpeed(setting, step);
        if points == [] || speed <= 0.0 { return Stops(Finish(state.(mode := Hidden, world := ""), active)); }
        state := state.(area := area);
        if area != "" { state := state.(world := WorldOf(setting, area)); }
        var elapsed := if second - descriptor < 0.0 then 0.0 else second - descriptor;
        r := FollowRouteInPlace(
          setting, Cursor(state, descriptor, active), points, descriptor, elapsed, speed, OnRoute(journey, index, Primary));
        return;
      case Lifecycle(alive) =>
        active := alive;
      case Vanish =>
        return Stops(Finish(state.(mode := Hidden, world := "", hasPosition := false, leg := NotOnRoute), active));
      case Rest =>
        return Stops(Finish(state.(mode := Acting), active));
      case Secondary(_) =>
      case Appearance(_) =>
    }
    return Goes(Cursor(state, descriptor, active));
  }

  method ActivateInPlace(
    setting: Setting, journey: nat, start: real, index: nat, action: Action, before: Cursor, second: real) returns (r: Turn)
    requires action.Activate?
    ensures r == PerformActivate(setting, journey, start, index, action, before, second)
  {
    var c, speed := before, RouteSpeed(setting, 0.0);
    var notBefore := if action.activation < 0.0 then start - action.activation else action.activation;
    if notBefore < start + action.minimumDelay {
      notBefore := start + action.minimumDelay;
    }
    if second < notBefore {
      if action.waiting.Some? {
        c := c.(state := c.state.(position := action.waiting.value, hasPosition := true));
      }
      return Stops(Finish(c.state.(mode := Waiting), c.active));
    }
    if action.controller != [] {
      r := FollowRouteInPlace(
        setting, c, action.controller, notBefore, second - notBefore, speed, OnRoute(journey, index, Controller));
      if !r.Goes? { return; }
      c := r.cursor;
    } else if action.linked.Some? {
      c := c.(state := c.state.(position := action.linked.value, hasPosition := true));
    } else {
      c := c.(state := c.state.(hasPosition := false));
    }
    if action.handoff != [] {
      r := FollowRouteInPlace(
        setting, c, action.handoff, c.descriptor, second - c.descriptor, speed, OnRoute(journey, index, Handoff));
      return;
    }
    return Goes(c);
  }

  // ---------- Jumps ----------

  datatype Jump = SecondaryObjectSwitch | SecondarySnap | ScheduleJump

  function Larger(a: real, b: real): (m: real) {
    if a < b then b else a
  }

  /** The time between two states, as far as it is plausible within one day. */
  function PlausibleDelta(before: State, after: State): (d: real) {
    var delta := after.effectiveSecond - before.effectiveSecond;
    if delta < 0.0 || delta > GAME_DAY_SECONDS then 0.0 else delta
  }

  function ClassifyDiscontinuity(root: Root, before: Option<State>, after: State): (jump: Option<Jump>) {
    if before.None? || !before.value.Visible() || !after.Visible() || before.value.world != after.world then None
    else
      var distance := HorizontalDistance(root, before.value.position, after.position);
      var speed := Larger(before.value.speed, after.speed);
      var expected := Times(speed, Larger(1.0, PlausibleDelta(before.value, after))) + 0.05;
      if distance <= expected then None
      else if before.value.operation == 0x1c && after.operation == 0x1c then
        Some(if before.value.secondaryObject != after.secondaryObject then SecondaryObjectSwitch else SecondarySnap)
      else Some(ScheduleJump)
  }
}
