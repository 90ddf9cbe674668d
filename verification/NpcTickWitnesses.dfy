/** Runs on which a tick fails, the pace of the clock changes or a schedule starts again, and what comes of it. */
module NpcTickWitnesses {
  import opened Common
  import opened NpcRoute
  import opened NpcCircuit
  import opened NpcSchedule
  import opened NpcScheduleTheorems
  import opened NpcTick
  import opened NpcTickTheorems

  // ---------- Two actors ----------

  const FAR := Vector3(30000.0, 0.0, 0.0)

  /** Walks straight on all day. */
  const WALKER := Actor(1, "", 0.01, map[0 := [
    Journey(0.0, [Operation(8, EnterArea("a"), None), Operation(1, Walk("a", [ORIGIN, FAR], 0.01), None)])]])

  /** Has a gate without a release from the twentieth second to the thirtieth, so that it cannot be evaluated then. */
  const GATED := Actor(2, "", 0.01, map[0 := [
    Journey(20.0, [Operation(0x18, Gate(0.0), None)]), Journey(30.0, [Operation(4, Rest, None)])]])

  function Troupe(root: Root): (cast: Cast) {
    Cast(root, map["a" := "w"], [WALKER, GATED], (id: int, game: real) => Some(0))
  }

  /** The paces of the clock: a game second a second, or ten. */
  predicate Pace(rate: real) {
    rate == 1.0 || rate == 0.1
  }

  function WalkerSpeed(rate: real): (speed: real) {
    if rate == 1.0 then 0.3 else 0.03
  }

  lemma RootOfSquare(root: Root, d: real)
    requires IsRoot(root) && d >= 0.0
    ensures root(Square(d)) == d
  {
    SquareIsPositive(d);
    SameSquares(root(Square(d)), d);
  }

  /** Along the first axis, distances are differences. */
  lemma OnTheAxis(root: Root, x: real, y: real)
    requires IsRoot(root) && x <= y
    ensures
      var a, b := Vector3(x, 0.0, 0.0), Vector3(y, 0.0, 0.0);
      HorizontalDistance(root, a, b) == HorizontalDistance(root, b, a) == Distance(root, a, b) == y - x
  {
    SquareOfNegative(y - x);
    assert Square(x - y) == Square(y - x) && Square(0.0) == 0.0;
    RootOfSquare(root, y - x);
  }

  lemma StraightLength(root: Root)
    requires IsRoot(root)
    ensures Distance(root, ORIGIN, FAR) == RouteLength(root, [ORIGIN, FAR]) == 30000.0
  {
    OnTheAxis(root, 0.0, 30000.0);
    assert PrefixLength(root, [ORIGIN, FAR], 0) == 0.0;
  }

  lemma OnTheSegment(p: real)
    ensures NpcRoute.Between(ORIGIN, FAR, p) == Vector3(Times(p, 30000.0), 0.0, 0.0)
  {
    assert Minus(FAR, ORIGIN) == FAR;
    assert Times(30000.0, p) == Times(p, 30000.0) && Times(0.0, p) == 0.0;
  }

  lemma StraightSample(root: Root, d: real)
    requires IsRoot(root) && 0.0 <= d <= 30000.0
    ensures Sample(root, [ORIGIN, FAR], d).value.position == Vector3(d, 0.0, 0.0)
  {
    StraightLength(root);
    ProgressReaches(30000.0, d);
    OnTheSegment(Progress(30000.0, d));
    assert Locate(root, [ORIGIN, FAR], 1, d) == Place(0, Progress(30000.0, d));
  }

  /** Where the walker is at second `t` of its day. */
  function WalkerAt(rate: real, t: real): (v: Vector3) {
    Vector3(Times(t, WalkerSpeed(rate)), 0.0, 0.0)
  }

  /** It is on its route all day long. */
  ghost predicate Walks(rate: real, e: real, s: State) {
    && s.world == "w" && s.hasPosition && s.mode == Walking && s.operation == 1
    && s.leg == OnRoute(0, 1, Primary) && s.speed == WalkerSpeed(rate)
    && s.position == WalkerAt(rate, NormalizedSecond(e)) && s.effectiveSecond == e
  }

  lemma WalkerHasNoRounds(setting: Setting, t: real)
    ensures Circle(setting, 0, 0.0, WALKER.variants[0][0].operations, t) == None
  {
    var operations := WALKER.variants[0][0].operations;
    assert operations[..1] == [operations[0]] && operations[..1][..0] == [];
    assert RoundsOf(operations[..1]) == [];
  }

  lemma WalkerHasItsSpeed(setting: Setting, t: real)
    requires Pace(setting.rate) && 0.0 <= t < GAME_DAY_SECONDS
    ensures RouteSpeed(setting, 0.01) == WalkerSpeed(setting.rate) > 0.0
    ensures 0.0 <= Times(t, WalkerSpeed(setting.rate)) <= 30000.0
  {
  }

  lemma FollowsStraight(setting: Setting, c: Cursor, elapsed: real, speed: real, leg: Leg)
    requires IsRoot(setting.root) && c.active && speed > 0.0 && 0.0 <= Times(elapsed, speed) <= 30000.0
    ensures
      var turn := FollowRoute(setting, c, [ORIGIN, FAR], 0.0, elapsed, speed, leg);
      && turn.Stops? && turn.state.position == Vector3(Times(elapsed, speed), 0.0, 0.0) && turn.state.hasPosition
      && turn.state.world == c.state.world && turn.state.mode == Walking && turn.state.operation == c.state.operation
      && turn.state.leg == leg && turn.state.speed == speed && turn.state.effectiveSecond == c.state.effectiveSecond
  {
    StraightLength(setting.root);
    StraightSample(setting.root, Times(elapsed, speed));
  }

  lemma WalkIsFollowed(setting: Setting, c: Cursor, t: real, speed: real)
    requires c.descriptor == 0.0 && t >= 0.0 && RouteSpeed(setting, 0.01) == speed > 0.0
    requires WorldOf(setting, "a") == "w"
    ensures
      PerformWalk(setting, 0, 1, Walk("a", [ORIGIN, FAR], 0.01), c, t)
      == FollowRoute(
           setting, c.(state := c.state.(area := "a", world := "w")), [ORIGIN, FAR], 0.0, t, speed, OnRoute(0, 1, Primary))
  {
  }

  lemma WalkerIsOnTheWay(root: Root, rate: real, c: Cursor, e: real)
    requires IsRoot(root) && Pace(rate) && c.active && c.descriptor == 0.0 && c.state.effectiveSecond == e
    ensures
      var setting, walk := SettingFor(Troupe(root), WALKER, rate), WALKER.variants[0][0].operations[1];
      var turn := Perform(setting, 0, 0.0, 1, walk, c, NormalizedSecond(e));
      turn.Stops? && Walks(rate, e, turn.state)
  {
    var setting, t, walk := SettingFor(Troupe(root), WALKER, rate), NormalizedSecond(e), WALKER.variants[0][0].operations[1];
    WalkerHasItsSpeed(setting, t);
    var here := Arrive(c, walk);
    var there := here.(state := here.state.(area := "a", world := "w"));
    assert Perform(setting, 0, 0.0, 1, walk, c, t) == PerformWalk(setting, 0, 1, walk.action, here, t);
    WalkIsFollowed(setting, here, t, WalkerSpeed(rate));
    FollowsStraight(setting, there, t, WalkerSpeed(rate), OnRoute(0, 1, Primary));
  }

  lemma WalkerWalks(root: Root, rate: real, e: real)
    requires IsRoot(root) && Pace(rate)
    ensures
      var s := Evaluate(SettingFor(Troupe(root), WALKER, rate), WALKER.variants[0], e);
      s.Some? && Walks(rate, e, s.value)
  {
    var setting, t := SettingFor(Troupe(root), WALKER, rate), NormalizedSecond(e);
    var operations := WALKER.variants[0][0].operations;
    assert JourneyAt(WALKER.variants[0], 1, t) == Some(0);
    WalkerHasNoRounds(setting, t);
    var c := Departure(setting, 0.0, e);
    var d := Perform(setting, 0, 0.0, 0, operations[0], c, t).cursor;
    WalkerIsOnTheWay(root, rate, d, e);
    assert Follow(setting, 0, 0.0, operations, 0, c, t) == Follow(setting, 0, 0.0, operations, 1, d, t);
  }

  lemma GateHasNoRelease(root: Root, rate: real, e: real)
    ensures
      var t := NormalizedSecond(e);
      Evaluate(SettingFor(Troupe(root), GATED, rate), GATED.variants[0], e).Some? <==> t < 20.0 || 30.0 <= t
  {
    var setting, t, journeys := SettingFor(Troupe(root), GATED, rate), NormalizedSecond(e), GATED.variants[0];
    assert JourneyAt(journeys, 2, t)
      == if 30.0 <= t then Some(1) else if 20.0 <= t then Some(0) else None;
    forall j: nat | j < 2 ensures RoundsOf(journeys[j].operations) == [] {
      assert journeys[j].operations[..0] == [];
    }
  }

  // ---------- Ticks of the two ----------

  function At(game: real, rate: real): (clock: Clock) {
    Clock(game, game, 1, rate)
  }

  /** Somebody stands in the walker's way, or nobody does. */
  function Met(blocked: bool): (crowd: int -> Encounter) {
    var blocker := Some(Player(7));
    (id: int) =>
      if blocked && id == 1 then Encounter(blocker, blocker, ORIGIN, 0.0, 0.0, false)
      else Encounter(None, None, ORIGIN, 0.0, 0.0, false)
  }

  /** Nothing has happened to an actor but a delay, and being in somebody's way. */
  predicate Standing(r: Runtime, delay: real, blocked: bool) {
    && r.day == 1 && r.variant == Some(0) && r.delay == delay && r.phase == NoPhase
    && r.blockedBy.Some? == blocked && (!blocked ==> r.blockedSince == None)
  }

  /** Or nothing at all yet, or only a checkpoint. */
  predicate Able(r: Runtime, delay: real, blocked: bool) {
    || Standing(r, delay, blocked)
    || (r == NEW_RUNTIME && delay == 0.0 && !blocked)
    || (r.variant == None && Standing(r.(variant := Some(0)), delay, blocked))
  }

  ghost predicate Stand(e: Engine, delay: real, blocked: bool) {
    e.runtimes.Keys == {1, 2} && Able(e.runtimes[1], delay, blocked) && Able(e.runtimes[2], 0.0, false)
  }

  /** The delay that the first pass counts. */
  function Counted(delay: real, blocked: bool, gameDelta: real): (d: real) {
    if blocked then delay + gameDelta else delay
  }

  lemma StandingAdvances(cast: Cast, actor: Actor, r: Runtime, clock: Clock, gameDelta: real, realDelta: real, delay: real, blocked: bool)
    requires cast.select == Troupe(cast.root).select && 0 in actor.variants && clock.day == 1
    requires Able(r, delay, blocked)
    ensures
      var a := Advance(cast, actor, r, clock, gameDelta, realDelta);
      && Standing(a.runtime, Counted(delay, blocked, gameDelta), blocked)
      && a.state == Evaluate(
           SettingFor(cast, actor, clock.rate), actor.variants[0], NormalizedSecond(clock.game) - Counted(delay, blocked, gameDelta))
  {
  }

  ghost predicate WalkerPlays(a: Advanced, clock: Clock, delay: real, blocked: bool) {
    && Standing(a.runtime, delay, blocked)
    && a.state.Some? && Walks(clock.rate, NormalizedSecond(clock.game) - delay, a.state.value)
  }

  /** Whether both can be evaluated at a time of day. */
  predicate Open(clock: Clock) {
    var t := NormalizedSecond(NormalizedSecond(clock.game));
    t < 20.0 || 30.0 <= t
  }

  predicate GatedPlays(a: Advanced, clock: Clock) {
    Standing(a.runtime, 0.0, false) && (a.state.Some? <==> Open(clock))
  }

  predicate OnTheFirstDay(clock: Clock) {
    clock.day == 1 && Pace(clock.rate)
  }

  /** All that the runs below need of the two. */
  ghost predicate Plays(cast: Cast) {
    && cast.Valid() && IsRoot(cast.root) && |cast.actors| == 2 && cast.actors[0].id == 1 && cast.actors[1].id == 2
    && (forall r, clock, gameDelta, realDelta, delay, blocked ::
          Able(r, delay, blocked) && OnTheFirstDay(clock) ==>
            WalkerPlays(
              Advance(cast, cast.actors[0], r, clock, gameDelta, realDelta), clock, Counted(delay, blocked, gameDelta), blocked))
    && (forall r, clock, gameDelta, realDelta ::
          Able(r, 0.0, false) && OnTheFirstDay(clock) ==>
            GatedPlays(Advance(cast, cast.actors[1], r, clock, gameDelta, realDelta), clock))
  }

  lemma WalkerIsPlayed(root: Root, r: Runtime, clock: Clock, gameDelta: real, realDelta: real, delay: real, blocked: bool)
    requires IsRoot(root) && Able(r, delay, blocked) && OnTheFirstDay(clock)
    ensures WalkerPlays(
      Advance(Troupe(root), WALKER, r, clock, gameDelta, realDelta), clock, Counted(delay, blocked, gameDelta), blocked)
  {
    StandingAdvances(Troupe(root), WALKER, r, clock, gameDelta, realDelta, delay, blocked);
    WalkerWalks(root, clock.rate, NormalizedSecond(clock.game) - Counted(delay, blocked, gameDelta));
  }

  lemma GatedIsPlayed(root: Root, r: Runtime, clock: Clock, gameDelta: real, realDelta: real)
    requires Able(r, 0.0, false) && OnTheFirstDay(clock)
    ensures GatedPlays(Advance(Troupe(root), GATED, r, clock, gameDelta, realDelta), clock)
  {
    StandingAdvances(Troupe(root), GATED, r, clock, gameDelta, realDelta, 0.0, false);
    GateHasNoRelease(root, clock.rate, NormalizedSecond(clock.game));
  }

  lemma TroupePlays(root: Root)
    requires IsRoot(root)
    ensures Plays(Troupe(root))
  {
    var cast := Troupe(root);
    forall r, clock, gameDelta, realDelta, delay, blocked | Able(r, delay, blocked) && OnTheFirstDay(clock)
      ensures WalkerPlays(
        Advance(cast, cast.actors[0], r, clock, gameDelta, realDelta), clock, Counted(delay, blocked, gameDelta), blocked)
    {
      WalkerIsPlayed(root, r, clock, gameDelta, realDelta, delay, blocked);
    }
    forall r, clock, gameDelta, realDelta | Able(r, 0.0, false) && OnTheFirstDay(clock)
      ensures GatedPlays(Advance(cast, cast.actors[1], r, clock, gameDelta, realDelta), clock)
    {
      GatedIsPlayed(root, r, clock, gameDelta, realDelta);
    }
  }

  // ---------- Single ticks ----------

  lemma NewPlay(cast: Cast)
    requires Plays(cast)
    ensures NewEngine(cast) == Engine(map[1 := NEW_RUNTIME, 2 := NEW_RUNTIME], None)
  {
    var runtimes := NewEngine(cast).runtimes;
    assert cast.actors[0].id in runtimes && cast.actors[1].id in runtimes;
    assert runtimes.Keys == {1, 2};
  }

  lemma PassOfTwo(cast: Cast, runtimes: map<int, Runtime>, step: (Actor, Runtime) -> Advanced)
    requires Plays(cast) && runtimes.Keys == {1, 2}
    ensures Casts(cast, runtimes)
    ensures
      var p := AdvanceFirst(cast, runtimes, step, 2);
      && (p.failed <==> step(cast.actors[0], runtimes[1]).state.None? || step(cast.actors[1], runtimes[2]).state.None?)
      && p.runtimes.Keys == {1, 2} && p.runtimes[1] == step(cast.actors[0], runtimes[1]).runtime
      && (step(cast.actors[0], runtimes[1]).state.Some? ==> p.runtimes[2] == step(cast.actors[1], runtimes[2]).runtime)
  {
    FirstPassAt(cast, runtimes, step, 2);
    var p := AdvanceFirst(cast, runtimes, step, 2);
    assert PassedAt(cast, runtimes, step, p, 2, 0) && PassedAt(cast, runtimes, step, p, 2, 1);
  }

  /** A tick succeeds just when the gate lets both be evaluated; if it fails, the delay is counted all the same. */
  lemma PlayTicks(cast: Cast, e: Engine, clock: Clock, crowd: int -> Encounter, delay: real, blocked: bool)
    requires Plays(cast) && OnTheFirstDay(clock) && Stand(e, delay, blocked)
    ensures Casts(cast, e.runtimes) && (TickSucceeds(cast, e, clock) <==> Open(clock))
    ensures
      var n := AfterTick(cast, e, clock, crowd);
      !Open(clock) ==> n.last == e.last && Stand(n, Counted(delay, blocked, GameDelta(e, clock)), blocked)
  {
    var step, gameDelta, realDelta := Advancing(cast, e, clock), GameDelta(e, clock), RealDelta(e, clock);
    PassOfTwo(cast, e.runtimes, step);
    assert WalkerPlays(
      Advance(cast, cast.actors[0], e.runtimes[1], clock, gameDelta, realDelta), clock, Counted(delay, blocked, gameDelta), blocked);
    assert GatedPlays(Advance(cast, cast.actors[1], e.runtimes[2], clock, gameDelta, realDelta), clock);
  }

  /** Whoever is in the way of the scheduled position is in the way of the shown one. */
  predicate Meets(e: Encounter, met: bool) {
    e.base == e.detected == if met then Some(Player(7)) else None
  }

  /** Somebody new in the way is waited for. */
  lemma StandingSettles(root: Root, r: Runtime, e: Encounter, met: bool, now: real, delay: real)
    requires Standing(r, delay, false) && Meets(e, met)
    ensures Standing(Settle(root, r, e, now), delay, met)
  {
  }

  /** What the walker shows: where its schedule has it, blocked or not. */
  ghost predicate ShowsWalker(r: Runtime, clock: Clock) {
    r.shown.Some? && exists s :: Walks(clock.rate, EffectiveSecond(r, clock.game), s) && r.shown.value.state == Published(r, s)
  }

  lemma Showing(root: Root, r: Runtime, state: State)
    ensures
      var n := Show(root, r, state);
      && n == r.(shown := n.shown) && n.shown.Some? && n.shown.value.state == Published(n, state)
      && n.shown.value.jump == JumpTo(root, r.shown, n.shown.value.state)
  {
  }

  lemma WalkerSettles(root: Root, a: Advanced, clock: Clock, delay: real, blocked: bool, e: Encounter, met: bool)
    requires WalkerPlays(a, clock, delay, blocked) && Meets(e, met)
    ensures
      var n := Show(root, Settle(root, a.runtime, e, clock.server), a.state.value);
      && n.delay == delay && ShowsWalker(n, clock) && (!blocked ==> Standing(n, delay, met))
      && n.shown.value.jump == JumpTo(root, a.runtime.shown, n.shown.value.state)
  {
    SettlingKeepsTheClock(root, a.runtime, e, clock.server);
    if !blocked {
      StandingSettles(root, a.runtime, e, met, clock.server, delay);
    }
    Showing(root, Settle(root, a.runtime, e, clock.server), a.state.value);
  }

  lemma AdvancingShowsNothing(cast: Cast, actor: Actor, r: Runtime, clock: Clock, gameDelta: real, realDelta: real)
    ensures Advance(cast, actor, r, clock, gameDelta, realDelta).runtime.shown == r.shown
  {
  }

  lemma WalkerTicks(
    cast: Cast, r: Runtime, clock: Clock, gameDelta: real, realDelta: real, delay: real, blocked: bool, e: Encounter, met: bool)
    requires Plays(cast) && OnTheFirstDay(clock) && Able(r, delay, blocked) && Meets(e, met)
    ensures
      var n := TickActor(cast, cast.actors[0], r, clock, gameDelta, realDelta, e);
      && n.delay == Counted(delay, blocked, gameDelta) && ShowsWalker(n, clock)
      && n.shown.value.jump == JumpTo(cast.root, r.shown, n.shown.value.state)
      && (!blocked ==> Standing(n, delay, met))
  {
    AdvancingShowsNothing(cast, cast.actors[0], r, clock, gameDelta, realDelta);
    var a := Advance(cast, cast.actors[0], r, clock, gameDelta, realDelta);
    assert WalkerPlays(a, clock, Counted(delay, blocked, gameDelta), blocked);
    WalkerSettles(cast.root, a, clock, Counted(delay, blocked, gameDelta), blocked, e, met);
  }

  /** A tick of the two while the gate lets both be evaluated. */
  lemma OpenTick(cast: Cast, e: Engine, clock: Clock, delay: real, blocked: bool, met: bool)
    requires Plays(cast) && OnTheFirstDay(clock) && Open(clock) && Stand(e, delay, blocked)
    ensures Casts(cast, e.runtimes) && TickSucceeds(cast, e, clock)
    ensures
      var n := AfterTick(cast, e, clock, Met(met));
      && n.last == Some(clock) && n.runtimes.Keys == {1, 2} && ShowsWalker(n.runtimes[1], clock)
      && n.runtimes[1].delay == Counted(delay, blocked, GameDelta(e, clock))
      && n.runtimes[1].shown.value.jump == JumpTo(cast.root, e.runtimes[1].shown, n.runtimes[1].shown.value.state)
      && (!blocked ==> Stand(n, delay, met) && Standing(n.runtimes[1], delay, met))
  {
    PlayTicks(cast, e, clock, Met(met), delay, blocked);
    TickAt(cast, e, clock, Met(met), 0);
    TickAt(cast, e, clock, Met(met), 1);
    WalkerTicks(cast, e.runtimes[1], clock, GameDelta(e, clock), RealDelta(e, clock), delay, blocked, Met(met)(1), met);
    GatedTicks(cast, e.runtimes[2], clock, GameDelta(e, clock), RealDelta(e, clock), Met(met)(2));
  }

  lemma GatedTicks(cast: Cast, r: Runtime, clock: Clock, gameDelta: real, realDelta: real, e: Encounter)
    requires Plays(cast) && OnTheFirstDay(clock) && Open(clock) && Able(r, 0.0, false) && Meets(e, false)
    ensures Standing(TickActor(cast, cast.actors[1], r, clock, gameDelta, realDelta, e), 0.0, false)
  {
    var a := Advance(cast, cast.actors[1], r, clock, gameDelta, realDelta);
    assert GatedPlays(a, clock);
    StandingSettles(cast.root, a.runtime, e, false, clock.server, 0.0);
    Showing(cast.root, Settle(cast.root, a.runtime, e, clock.server), a.state.value);
  }

  // ---------- Runs ----------

  lemma TimeOfDay(e: real)
    requires -GAME_DAY_SECONDS <= e < GAME_DAY_SECONDS
    ensures NormalizedSecond(e) == if e < 0.0 then e + GAME_DAY_SECONDS else e
    ensures (e / GAME_DAY_SECONDS).Floor == if e < 0.0 then -1 else 0
  {
  }

  /** How far apart two places of the walker are. */
  function Apart(rate: real, e: real, other: real, f: real): (d: real) {
    var x, y := Times(NormalizedSecond(e), WalkerSpeed(rate)), Times(NormalizedSecond(f), WalkerSpeed(other));
    if x <= y then y - x else x - y
  }

  /** Further than two seconds' walk, or than one if no more time has passed. */
  predicate FarApart(rate: real, e: real, other: real, f: real) {
    f - e <= 2.0 && Apart(rate, e, other, f) > if f - e <= 1.0 then 0.35 else 0.65
  }

  lemma FarApartIsAJump(root: Root, rate: real, e: real, s: State, other: real, f: real, t: State)
    requires IsRoot(root) && Walks(rate, e, s) && Walks(other, f, t) && Pace(rate) && Pace(other)
    requires FarApart(rate, e, other, f)
    ensures ClassifyDiscontinuity(root, Some(s), t) == Some(ScheduleJump)
  {
    var x, y := Times(NormalizedSecond(e), WalkerSpeed(rate)), Times(NormalizedSecond(f), WalkerSpeed(other));
    if x <= y { OnTheAxis(root, x, y); } else { OnTheAxis(root, y, x); }
  }

  /** The walker announces a jump, although it is on the leg on which it was shown before. */
  ghost predicate Jumps(before: Runtime, after: Runtime) {
    && before.shown.Some? && after.shown.Some? && after.shown.value.jump == Some(ScheduleJump)
    && before.shown.value.state.leg == after.shown.value.state.leg == OnRoute(0, 1, Primary)
  }

  lemma ShowingsFarApart(root: Root, before: Runtime, first: Clock, n: Runtime, clock: Clock)
    requires IsRoot(root) && OnTheFirstDay(first) && OnTheFirstDay(clock) && ShowsWalker(before, first) && ShowsWalker(n, clock)
    requires n.shown.value.jump == JumpTo(root, before.shown, n.shown.value.state)
    requires FarApart(first.rate, EffectiveSecond(before, first.game), clock.rate, EffectiveSecond(n, clock.game))
    ensures Jumps(before, n)
  {
    var e, f := EffectiveSecond(before, first.game), EffectiveSecond(n, clock.game);
    var s :| Walks(first.rate, e, s) && before.shown.value.state == Published(before, s);
    var t :| Walks(clock.rate, f, t) && n.shown.value.state == Published(n, t);
    FarApartIsAJump(root, first.rate, e, s, clock.rate, f, t);
    PublishingKeepsJumps(root, before, s, n, t);
  }

  /** Two showings far apart, the second by a tick that found the first. */
  lemma JumpIsShown(cast: Cast, before: Runtime, first: Clock, e: Engine, clock: Clock, delay: real, blocked: bool, met: bool)
    requires Plays(cast) && OnTheFirstDay(first) && OnTheFirstDay(clock) && Open(clock) && Stand(e, delay, blocked)
    requires ShowsWalker(before, first) && e.runtimes[1].shown == before.shown
    requires
      var f := NormalizedSecond(clock.game) - Counted(delay, blocked, GameDelta(e, clock));
      FarApart(first.rate, EffectiveSecond(before, first.game), clock.rate, f)
    ensures Casts(cast, e.runtimes) && 1 in AfterTick(cast, e, clock, Met(met)).runtimes
    ensures Jumps(before, AfterTick(cast, e, clock, Met(met)).runtimes[1])
  {
    OpenTick(cast, e, clock, delay, blocked, met);
    ShowingsFarApart(cast.root, before, first, AfterTick(cast, e, clock, Met(met)).runtimes[1], clock);
  }

  /** Three ticks of a day: the second fails, and both it and the third count the two seconds before it. */
  const NINETEEN := TickOp(At(19.0, 1.0), Met(true))
  const TWENTYONE := TickOp(At(21.0, 1.0), Met(true))
  const THIRTYONE := TickOp(At(31.0, 1.0), Met(true))

  lemma OneOpMore(cast: Cast, ops: seq<Op>, op: Op)
    requires cast.Valid()
    ensures AfterOps(cast, ops + [op]) == Step(cast, AfterOps(cast, ops), op)
  {
    assert (ops + [op])[..|ops|] == ops;
  }

  lemma MorningOpens()
    ensures Open(At(5.0, 1.0)) && Open(At(7.0, 1.0)) && Open(At(19.0, 1.0)) && !Open(At(21.0, 1.0)) && Open(At(31.0, 1.0))
    ensures Open(At(10000.0, 1.0)) && Open(At(10001.0, 0.1))
    ensures NormalizedSecond(5.0) == 5.0 && NormalizedSecond(7.0) == 7.0 && NormalizedSecond(19.0) == 19.0
    ensures NormalizedSecond(21.0) == 21.0 && NormalizedSecond(31.0) == 31.0 && NormalizedSecond(17.0) == 17.0
    ensures NormalizedSecond(10000.0) == 10000.0 && NormalizedSecond(10001.0) == 10001.0
    ensures NormalizedSecond(-1.0) == 86399.0 && NormalizedSecond(1.0) == 1.0
  {
    TimeOfDay(5.0); TimeOfDay(7.0); TimeOfDay(17.0); TimeOfDay(19.0); TimeOfDay(21.0); TimeOfDay(31.0);
    TimeOfDay(10000.0); TimeOfDay(10001.0); TimeOfDay(-1.0); TimeOfDay(1.0);
  }

  lemma TickWhileStanding(cast: Cast, e: Engine, clock: Clock, met: bool)
    requires Plays(cast) && OnTheFirstDay(clock) && Open(clock) && Stand(e, 0.0, false)
    ensures Casts(cast, e.runtimes)
    ensures
      var n := Step(cast, e, TickOp(clock, Met(met)));
      n.last == Some(clock) && Stand(n, 0.0, met) && Standing(n.runtimes[1], 0.0, met) && ShowsWalker(n.runtimes[1], clock)
  {
    OpenTick(cast, e, clock, 0.0, false, met);
  }

  ghost predicate Waits(r: Runtime) {
    Standing(r, 0.0, true) && ShowsWalker(r, NINETEEN.clock)
  }

  lemma FirstTick(cast: Cast)
    requires Plays(cast)
    ensures
      var e := AfterOps(cast, [NINETEEN]);
      e.last == Some(NINETEEN.clock) && Stand(e, 0.0, true) && Waits(e.runtimes[1])
  {
    OneOpMore(cast, [], NINETEEN);
    assert [] + [NINETEEN] == [NINETEEN];
    NewPlay(cast);
    MorningOpens();
    TickWhileStanding(cast, AfterOps(cast, []), NINETEEN.clock, true);
  }

  lemma SecondTick(cast: Cast, e: Engine)
    requires Plays(cast) && e.last == Some(NINETEEN.clock) && Stand(e, 0.0, true) && Waits(e.runtimes[1])
    ensures Casts(cast, e.runtimes) && !TickSucceeds(cast, e, TWENTYONE.clock)
    ensures
      var n := AfterTick(cast, e, TWENTYONE.clock, TWENTYONE.crowd);
      n.last == e.last && Stand(n, 2.0, true) && n.runtimes[1].shown == e.runtimes[1].shown
  {
    MorningOpens();
    assert GameDelta(e, TWENTYONE.clock) == 2.0;
    PlayTicks(cast, e, TWENTYONE.clock, TWENTYONE.crowd, 0.0, true);
    FailureShowsNothing(cast, e, DayTick(TWENTYONE.clock, TWENTYONE.crowd), 0);
  }

  lemma ThirdTick(cast: Cast, before: Runtime, e: Engine)
    requires Plays(cast) && e.last == Some(NINETEEN.clock) && Stand(e, 2.0, true) && e.runtimes[1].shown == before.shown
    requires Waits(before)
    ensures Casts(cast, e.runtimes) && TickSucceeds(cast, e, THIRTYONE.clock)
    ensures
      var n := AfterTick(cast, e, THIRTYONE.clock, THIRTYONE.crowd);
      n.last == Some(THIRTYONE.clock) && 1 in n.runtimes && n.runtimes[1].delay == 14.0 && Jumps(before, n.runtimes[1])
  {
    MorningOpens();
    assert GameDelta(e, THIRTYONE.clock) == 12.0;
    OpenTick(cast, e, THIRTYONE.clock, 2.0, true, true);
    JumpIsShown(cast, before, NINETEEN.clock, e, THIRTYONE.clock, 2.0, true, true);
  }

  /** From `before` on, the delay outgrows the time frozen, the schedule goes back and the walker jumps. */
  ghost predicate TurnsBack(cast: Cast, before: Engine, ticks: seq<DayTick>, after: Engine)
    requires Casts(cast, before.runtimes)
  {
    && OneDay(cast, before, ticks) && after == AfterTicks(cast, before, ticks) && 1 in before.runtimes
    && before.last == Some(At(19.0, 1.0)) && after.last == Some(At(31.0, 1.0))
    && before.runtimes[1].delay == 0.0 && after.runtimes[1].delay == 14.0 && FrozenTime(cast, before, ticks, 1) == 12.0
    && EffectiveSecond(before.runtimes[1], 19.0) == 19.0 && EffectiveSecond(after.runtimes[1], 31.0) == 17.0
    && Jumps(before.runtimes[1], after.runtimes[1])
  }

  /**
   * A day on which a tick fails. The walker is in somebody's way from the nineteenth second on; the tick at
   * the twenty-first fails on the other actor after it counted two seconds for the walker, and the tick at
   * the thirty-first counts all twelve. The walker was frozen for twelve seconds and is fourteen late: its
   * schedule has gone back by two, and it jumps on its own route.
   */
  lemma FailedTickTurnsTheScheduleBack(root: Root)
    requires IsRoot(root)
    ensures Troupe(root).Valid()
    ensures
      var ticks := [DayTick(TWENTYONE.clock, TWENTYONE.crowd), DayTick(THIRTYONE.clock, THIRTYONE.crowd)];
      TurnsBack(
        Troupe(root), AfterOps(Troupe(root), [NINETEEN]), ticks, AfterOps(Troupe(root), [NINETEEN, TWENTYONE, THIRTYONE]))
  {
    TroupePlays(root);
    FailedTickOf(Troupe(root));
  }

  lemma FailedTickOf(cast: Cast)
    requires Plays(cast)
    ensures
      var ticks := [DayTick(TWENTYONE.clock, TWENTYONE.crowd), DayTick(THIRTYONE.clock, THIRTYONE.crowd)];
      TurnsBack(cast, AfterOps(cast, [NINETEEN]), ticks, AfterOps(cast, [NINETEEN, TWENTYONE, THIRTYONE]))
  {
    FirstTick(cast);
    var before, after := AfterOps(cast, [NINETEEN]), AfterOps(cast, [NINETEEN, TWENTYONE, THIRTYONE]);
    assert [NINETEEN] + [TWENTYONE, THIRTYONE] == [NINETEEN, TWENTYONE, THIRTYONE];
    TwoOpsMore(cast, [NINETEEN], DayTick(TWENTYONE.clock, TWENTYONE.crowd), DayTick(THIRTYONE.clock, THIRTYONE.crowd));
    FromNineteen(cast, before, after);
  }

  lemma PairOfTicks(cast: Cast, e: Engine, a: DayTick, b: DayTick)
    requires Casts(cast, e.runtimes)
    ensures AfterTicks(cast, e, [a, b]) == AfterTick(cast, AfterTick(cast, e, a.clock, a.crowd), b.clock, b.crowd)
  {
    assert [a, b][..1] == [a] && [a][..0] == [];
    assert AfterTicks(cast, e, []) == e;
    assert AfterTicks(cast, e, [a]) == AfterTick(cast, e, a.clock, a.crowd);
  }

  lemma TickIsAnOp(cast: Cast, ops: seq<Op>, a: DayTick)
    requires cast.Valid()
    ensures AfterOps(cast, ops + [TickOp(a.clock, a.crowd)]) == AfterTick(cast, AfterOps(cast, ops), a.clock, a.crowd)
  {
    OneOpMore(cast, ops, TickOp(a.clock, a.crowd));
  }

  lemma TwoOpsMore(cast: Cast, ops: seq<Op>, a: DayTick, b: DayTick)
    requires cast.Valid()
    ensures AfterOps(cast, ops + [TickOp(a.clock, a.crowd), TickOp(b.clock, b.crowd)]) == AfterTicks(cast, AfterOps(cast, ops), [a, b])
  {
    var first, second := TickOp(a.clock, a.crowd), TickOp(b.clock, b.crowd);
    assert ops + [first, second] == (ops + [first]) + [second];
    TickIsAnOp(cast, ops, a);
    TickIsAnOp(cast, ops + [first], b);
    PairOfTicks(cast, AfterOps(cast, ops), a, b);
  }

  lemma FromNineteen(cast: Cast, before: Engine, after: Engine)
    requires Plays(cast) && before.last == Some(NINETEEN.clock) && Stand(before, 0.0, true) && Waits(before.runtimes[1])
    requires Casts(cast, before.runtimes)
    requires
      after == AfterTicks(cast, before, [DayTick(TWENTYONE.clock, TWENTYONE.crowd), DayTick(THIRTYONE.clock, THIRTYONE.crowd)])
    ensures
      var ticks := [DayTick(TWENTYONE.clock, TWENTYONE.crowd), DayTick(THIRTYONE.clock, THIRTYONE.crowd)];
      TurnsBack(cast, before, ticks, after)
  {
    var second, third := DayTick(TWENTYONE.clock, TWENTYONE.crowd), DayTick(THIRTYONE.clock, THIRTYONE.crowd);
    SecondTick(cast, before);
    var between := AfterTick(cast, before, second.clock, second.crowd);
    ThirdTick(cast, before.runtimes[1], between);
    MorningOpens();
    TimeOfDay(19.0);
    TimeOfDay(21.0);
    TimeOfDay(31.0);
    TwoTicks(cast, before, second, third, between);
  }

  /** Two ticks, the first of which fails. */
  lemma TwoTicks(cast: Cast, before: Engine, second: DayTick, third: DayTick, between: Engine)
    requires Plays(cast) && Casts(cast, before.runtimes) && 1 in before.runtimes && before.last.Some?
    requires LaterThatDay(before.last.value, second.clock) && !TickSucceeds(cast, before, second.clock)
    requires between == AfterTick(cast, before, second.clock, second.crowd) && between.last == before.last
    requires LaterThatDay(before.last.value, third.clock) && TickSucceeds(cast, between, third.clock)
    requires Frozen(between.runtimes[1])
    ensures
      var ticks := [second, third];
      && AfterTicks(cast, before, ticks) == AfterTick(cast, between, third.clock, third.crowd) && OneDay(cast, before, ticks)
      && FrozenTime(cast, before, ticks, 1) == third.clock.game - before.last.value.game
  {
    PairOfTicks(cast, before, second, third);
    assert [second, third][..1] == [second] && [second][..0] == [];
    assert AfterTicks(cast, before, []) == before;
    assert AfterTicks(cast, before, [second]) == between;
    assert OneDay(cast, before, []) && OneDay(cast, before, [second]);
    assert FrozenTime(cast, before, [], 1) == 0.0;
    assert FrozenTime(cast, before, [second], 1) == 0.0;
  }

  // ---------- Other jumps on one route ----------

  /** A tick that succeeds, and makes the walker jump. */
  ghost predicate JumpsAt(cast: Cast, e: Engine, tick: DayTick)
    requires Casts(cast, e.runtimes)
  {
    && TickSucceeds(cast, e, tick.clock)
    && 1 in e.runtimes && Jumps(e.runtimes[1], AfterTick(cast, e, tick.clock, tick.crowd).runtimes[1])
  }

  /** Two ticks that both succeed, and the walker jumps at the second. */
  ghost predicate JumpsBetween(cast: Cast, e: Engine, first: DayTick, second: DayTick)
    requires Casts(cast, e.runtimes)
  {
    TickSucceeds(cast, e, first.clock) && JumpsAt(cast, AfterTick(cast, e, first.clock, first.crowd), second)
  }

  lemma SecondTickJumps(cast: Cast, e: Engine, first: Clock, second: Clock, delay: real)
    requires Plays(cast) && OnTheFirstDay(first) && OnTheFirstDay(second) && Open(second) && Stand(e, delay, false)
    requires ShowsWalker(e.runtimes[1], first) && e.runtimes[1].delay == delay
    requires FarApart(first.rate, NormalizedSecond(first.game) - delay, second.rate, NormalizedSecond(second.game) - delay)
    ensures Casts(cast, e.runtimes) && JumpsAt(cast, e, DayTick(second, Met(false)))
  {
    PlayTicks(cast, e, second, Met(false), delay, false);
    JumpIsShown(cast, e.runtimes[1], first, e, second, delay, false, false);
  }

  lemma TwoTicksFarApart(cast: Cast, e: Engine, first: Clock, second: Clock, delay: real)
    requires Plays(cast) && OnTheFirstDay(first) && OnTheFirstDay(second) && Open(first) && Open(second) && Stand(e, delay, false)
    requires FarApart(first.rate, NormalizedSecond(first.game) - delay, second.rate, NormalizedSecond(second.game) - delay)
    ensures Casts(cast, e.runtimes) && JumpsBetween(cast, e, DayTick(first, Met(false)), DayTick(second, Met(false)))
  {
    OpenTick(cast, e, first, delay, false, false);
    SecondTickJumps(cast, AfterTick(cast, e, first, Met(false)), first, second, delay);
  }

  /** When the clock slows down tenfold, the walker falls back along its route. */
  lemma ChangedPaceIsAJump(root: Root)
    requires IsRoot(root)
    ensures
      var cast := Troupe(root);
      cast.Valid() && JumpsBetween(
        cast, AfterOps(cast, []), DayTick(At(10000.0, 1.0), Met(false)), DayTick(At(10001.0, 0.1), Met(false)))
  {
    TroupePlays(root);
    ChangedPaceOf(Troupe(root));
  }

  lemma ChangedPaceOf(cast: Cast)
    requires Plays(cast)
    ensures JumpsBetween(
      cast, AfterOps(cast, []), DayTick(At(10000.0, 1.0), Met(false)), DayTick(At(10001.0, 0.1), Met(false)))
  {
    MorningOpens();
    NewPlay(cast);
    TwoTicksFarApart(cast, AfterOps(cast, []), At(10000.0, 1.0), At(10001.0, 0.1), 0.0);
  }

  const SIXLATE := RestoreOp([Checkpoint(1, 1, 6.0)])

  /** A walker restored with a delay beyond the time of day is at the end of yesterday's walk until its schedule starts again. */
  lemma MidnightIsAJump(root: Root)
    requires IsRoot(root)
    ensures
      var cast := Troupe(root);
      cast.Valid() && JumpsBetween(
        cast, AfterOps(cast, [SIXLATE]), DayTick(At(5.0, 1.0), Met(false)), DayTick(At(7.0, 1.0), Met(false)))
  {
    TroupePlays(root);
    MidnightOf(Troupe(root));
  }

  lemma MidnightOf(cast: Cast)
    requires Plays(cast)
    ensures JumpsBetween(
      cast, AfterOps(cast, [SIXLATE]), DayTick(At(5.0, 1.0), Met(false)), DayTick(At(7.0, 1.0), Met(false)))
  {
    MorningOpens();
    RestoredStands(cast);
    TwoTicksFarApart(cast, AfterOps(cast, [SIXLATE]), At(5.0, 1.0), At(7.0, 1.0), 6.0);
  }

  lemma RestoredStands(cast: Cast)
    requires Plays(cast)
    ensures Stand(AfterOps(cast, [SIXLATE]), 6.0, false)
  {
    NewPlay(cast);
    OneOpMore(cast, [], SIXLATE);
    assert [] + [SIXLATE] == [SIXLATE];
    var checkpoint := Checkpoint(1, 1, 6.0);
    assert [checkpoint][..0] == [];
    assert Restore(NewEngine(cast).runtimes, [checkpoint]) == RestoreOne(NewEngine(cast).runtimes, checkpoint);
  }
}
