/** Delays, sidesteps and jumps over whole runs of the crowd. */
module NpcTickTheorems {
  import opened Common
  import opened NpcRoute
  import opened NpcSchedule
  import opened NpcScheduleTheorems
  import opened NpcTick

  // ---------- The sidestep ----------

  function Flat(v: Vector3): (s: real) {
    Square(v.x) + Square(v.z)
  }

  /** `offset` lies on the way from the origin to `target`. */
  ghost predicate OnTheWayTo(offset: Vector3, target: Vector3) {
    exists part: real :: IsPart(offset, target, part)
  }

  predicate IsPart(offset: Vector3, target: Vector3, part: real) {
    0.0 <= part <= 1.0 && offset == Scaled(target, part)
  }

  /** A sidestep's target is level and at most one unit off. */
  predicate ShortTarget(target: Vector3) {
    target.y == 0.0 && Flat(target) <= 1.0
  }

  lemma OriginIsShort()
    ensures ShortTarget(ORIGIN)
  {
  }

  /** What is required of places on the way and of targets, named so that most proofs need not look inside. */
  type Way = (Vector3, Vector3) -> bool
  type Reach = Vector3 -> bool

  ghost predicate SoundBy(way: Way, short: Reach, r: Runtime) {
    && r.delay >= 0.0
    && short(r.target) && way(r.offset, r.target)
    && (r.phase == NoPhase ==> r.offset == ORIGIN && r.target == ORIGIN)
    && (r.phase == Passing ==> r.offset == r.target)
    && (r.phase != NoPhase ==> r.blockedBy == None)
    && (r.blockedBy.Some? ==> r.blockedSince.Some?)
  }

  ghost predicate StartsAnywhere(way: Way) {
    forall target :: way(ORIGIN, target)
  }

  ghost predicate StepsOnward(root: Root, way: Way, short: Reach) {
    forall offset, target, maximum: real :: way(offset, target) && short(target) && maximum > 0.0 ==>
      way(MoveHorizontalToward(root, offset, target, maximum), target)
  }

  ghost predicate StepsBack(root: Root, way: Way, short: Reach) {
    forall offset, target, maximum: real :: way(offset, target) && short(target) && maximum > 0.0 ==>
      way(MoveHorizontalToward(root, offset, ORIGIN, maximum), target)
  }

  ghost predicate SidesInReach(root: Root, short: Reach) {
    forall e: Encounter :: short(SideOf(root, e))
  }

  /** Steps and choices stay on the way and in reach. */
  ghost predicate Closed(root: Root, way: Way, short: Reach) {
    && short(ORIGIN) && StartsAnywhere(way) && StepsOnward(root, way, short) && StepsBack(root, way, short) && SidesInReach(root, short)
  }

  ghost function ActualWay(): (way: Way) {
    (offset, target) => OnTheWayTo(offset, target)
  }

  ghost function ActualReach(): (short: Reach) {
    target => ShortTarget(target)
  }

  /**
   * An actor's runtime is sound: its sidestep lies between nothing and a target at most one unit off,
   * and is the target while passing; and one that steps aside holds no blocker.
   */
  ghost predicate Sound(r: Runtime) {
    && r.delay >= 0.0
    && ShortTarget(r.target) && OnTheWayTo(r.offset, r.target)
    && (r.phase == NoPhase ==> r.offset == ORIGIN && r.target == ORIGIN)
    && (r.phase == Passing ==> r.offset == r.target)
    && (r.phase != NoPhase ==> r.blockedBy == None)
    && (r.blockedBy.Some? ==> r.blockedSince.Some?)
  }

  lemma PartOf(offset: Vector3, target: Vector3, part: real)
    requires 0.0 <= part <= 1.0 && offset == Scaled(target, part)
    ensures OnTheWayTo(offset, target)
  {
    assert IsPart(offset, target, part);
  }

  lemma OriginIsOnTheWay(target: Vector3)
    ensures OnTheWayTo(ORIGIN, target)
  {
    PartOf(ORIGIN, target, 0.0);
  }

  lemma TargetIsOnTheWay(target: Vector3)
    ensures OnTheWayTo(target, target)
  {
    PartOf(target, target, 1.0);
  }

  /** Part of the way on: `part` of the target and then `scale` of what is left. */
  lemma FurtherOn(x: real, part: real, scale: real)
    ensures Times(x, part) + Times(x - Times(x, part), scale) == Times(x, part + Times(1.0 - part, scale))
  {
  }

  lemma FurtherBack(x: real, part: real, scale: real)
    ensures Times(x, part) + Times(0.0 - Times(x, part), scale) == Times(x, Times(part, 1.0 - scale))
  {
  }

  lemma PartsAdd(part: real, scale: real)
    requires 0.0 <= part <= 1.0 && 0.0 <= scale <= 1.0
    ensures 0.0 <= part + Times(1.0 - part, scale) <= 1.0
    ensures 0.0 <= Times(part, 1.0 - scale) <= 1.0
  {
    ProductIsPositive(1.0 - part, scale);
    ProductIsPositive(1.0 - part, 1.0 - scale);
    ProductIsPositive(part, 1.0 - scale);
    ProductIsPositive(part, scale);
    assert Times(1.0 - part, 1.0 - scale) == (1.0 - part) - Times(1.0 - part, scale);
    assert Times(part, 1.0 - scale) == part - Times(part, scale);
  }

  lemma QuotientIsPart(a: real, b: real)
    requires 0.0 < a < b
    ensures 0.0 <= a / b <= 1.0
  {
  }

  lemma MovingOnStaysOnTheWay(root: Root, offset: Vector3, target: Vector3, maximum: real)
    requires IsRoot(root) && OnTheWayTo(offset, target) && ShortTarget(target) && maximum > 0.0
    ensures OnTheWayTo(MoveHorizontalToward(root, offset, target, maximum), target)
  {
    var part: real :| IsPart(offset, target, part);
    var distance := Hypot(root, target.x - offset.x, target.z - offset.z);
    TargetIsOnTheWay(target);
    if distance != 0.0 && distance > maximum {
      var scale := maximum / distance;
      QuotientIsPart(maximum, distance);
      PartsAdd(part, scale);
      FurtherOn(target.x, part, scale);
      FurtherOn(target.z, part, scale);
      var further := part + Times(1.0 - part, scale);
      assert Times(0.0, further) == 0.0;
      PartOf(MoveHorizontalToward(root, offset, target, maximum), target, further);
    }
  }

  lemma MovingBackStaysOnTheWay(root: Root, offset: Vector3, target: Vector3, maximum: real)
    requires IsRoot(root) && OnTheWayTo(offset, target) && ShortTarget(target) && maximum > 0.0
    ensures OnTheWayTo(MoveHorizontalToward(root, offset, ORIGIN, maximum), target)
  {
    var part: real :| IsPart(offset, target, part);
    var distance := Hypot(root, 0.0 - offset.x, 0.0 - offset.z);
    OriginIsOnTheWay(target);
    if distance != 0.0 && distance > maximum {
      var scale := maximum / distance;
      QuotientIsPart(maximum, distance);
      PartsAdd(part, scale);
      FurtherBack(target.x, part, scale);
      FurtherBack(target.z, part, scale);
      var back := Times(part, 1.0 - scale);
      assert Times(0.0, back) == 0.0;
      PartOf(MoveHorizontalToward(root, offset, ORIGIN, maximum), target, back);
    }
  }

  lemma UnitSquares(x: real, z: real, length: real)
    requires length > 0.0 && Square(length) == Square(x) + Square(z)
    ensures Square(x / length) + Square(z / length) == 1.0
  {
    var a, b := x / length, z / length;
    QuotientTimes(x, length);
    QuotientTimes(z, length);
    SquareOfProduct(a, length);
    SquareOfProduct(b, length);
    SquareIsPositive(length);
    var s := Square(length);
    assert Times(Square(a), s) + Times(Square(b), s) == s;
    OneIsLeft(Square(a) + Square(b), s);
  }

  lemma ProductsDiffer(p: real, q: real, s: real)
    requires s > 0.0 && p < q
    ensures Times(p, s) < Times(q, s)
  {
    ProductIsPositive(q - p, s);
    assert Times(q - p, s) == Times(q, s) - Times(p, s);
  }

  lemma OneIsLeft(p: real, s: real)
    requires s > 0.0 && Times(p, s) == s
    ensures p == 1.0
  {
    assert Times(1.0, s) == s;
    if p > 1.0 {
      ProductsDiffer(1.0, p, s);
    } else if p < 1.0 {
      ProductsDiffer(p, 1.0, s);
    }
  }

  lemma HypotIsRoot(root: Root, dx: real, dz: real)
    requires IsRoot(root)
    ensures Hypot(root, dx, dz) >= 0.0 && Square(Hypot(root, dx, dz)) == Square(dx) + Square(dz)
  {
    SquareIsPositive(dx);
    SquareIsPositive(dz);
  }

  lemma SidesAreUnits(x: real, z: real, length: real)
    requires length > 0.0 && Square(length) == Square(x) + Square(z)
    ensures
      var left := Vector3(-z / length, 0.0, x / length);
      Flat(left) == 1.0 && Flat(Vector3(-left.x, 0.0, -left.z)) == 1.0
  {
    SquareOfNegative(z);
    UnitSquares(-z, x, length);
    SquareOfNegative(-z / length);
    SquareOfNegative(x / length);
  }

  /** A chosen sidestep is level, and one unit long at most. */
  lemma ChosenOffsetIsShort(root: Root, e: Encounter)
    requires IsRoot(root)
    ensures ShortTarget(SideOf(root, e))
  {
    var d := e.direction;
    var length := Hypot(root, d.x, d.z);
    HypotIsRoot(root, d.x, d.z);
    if length == 0.0 {
      OriginIsShort();
    } else {
      SidesAreUnits(d.x, d.z, length);
    }
  }

  /** How far `side` goes along a direction, and how far to the left of it. */
  function Along(direction: Vector3, side: Vector3): (d: real) {
    Times(direction.x, side.x) + Times(direction.z, side.z)
  }

  function Leftward(direction: Vector3, side: Vector3): (d: real) {
    Times(direction.x, side.z) - Times(direction.z, side.x)
  }

  lemma TurnedAlong(p: real, q: real, length: real)
    ensures Times(Times(q, length), p) + Times(-Times(p, length), q) == 0.0
  {
  }

  lemma TurnedLeft(p: real, q: real, length: real)
    ensures Times(Times(q, length), q) - Times(-Times(p, length), p) == Times(length, Square(p) + Square(q))
  {
  }

  lemma TurnIsSquare(direction: Vector3, length: real)
    requires length > 0.0 && Square(length) == Square(direction.x) + Square(direction.z)
    ensures
      var left := Vector3(-direction.z / length, 0.0, direction.x / length);
      var right := Vector3(-left.x, 0.0, -left.z);
      && Along(direction, left) == 0.0 && Leftward(direction, left) == length
      && Along(direction, right) == 0.0 && Leftward(direction, right) == -length
  {
    var p, q := -direction.z / length, direction.x / length;
    QuotientTimes(-direction.z, length);
    QuotientTimes(direction.x, length);
    SidesAreUnits(direction.x, direction.z, length);
    TurnedAlong(p, q, length);
    TurnedLeft(p, q, length);
    assert Square(p) + Square(q) == 1.0 && Times(length, 1.0) == length;
    TurnedBack(direction.x, p);
    TurnedBack(direction.x, q);
    TurnedBack(direction.z, p);
    TurnedBack(direction.z, q);
  }

  lemma TurnedBack(x: real, y: real)
    ensures Times(x, -y) == -Times(x, y)
  {
  }

  /**
   * An actor steps aside at right angles to its way, by one unit, to the side that is clearer; between sides
   * that are equally clear its name decides.
   */
  lemma ChosenSideIsClearer(root: Root, e: Encounter)
    requires IsRoot(root)
    ensures
      var d, side := e.direction, SideOf(root, e);
      && Along(d, side) == 0.0 && side.y == 0.0
      && ((d.x != 0.0 || d.z != 0.0) ==>
            && Square(side.x) + Square(side.z) == 1.0
            && (Leftward(d, side) > 0.0
                <==> e.leftScore > e.rightScore || (e.leftScore == e.rightScore && !e.stableRight))
            && (Leftward(d, side) < 0.0
                <==> e.rightScore > e.leftScore || (e.leftScore == e.rightScore && e.stableRight)))
      && (d.x == 0.0 && d.z == 0.0 ==> side == ORIGIN)
  {
    var d := e.direction;
    var length := Hypot(root, d.x, d.z);
    HypotIsRoot(root, d.x, d.z);
    if length == 0.0 {
      assert Square(length) == 0.0;
      SquareIsPositive(d.x);
      SquareIsPositive(d.z);
      assert Along(d, ORIGIN) == 0.0;
    } else {
      SquareIsPositive(length);
      TurnIsSquare(d, length);
      SidesAreUnits(d.x, d.z, length);
      assert d.x == 0.0 && d.z == 0.0 ==> Square(length) == 0.0;
    }
  }

  lemma ActualStepsOnward(root: Root)
    requires IsRoot(root)
    ensures StepsOnward(root, ActualWay(), ActualReach())
  {
    forall offset, target, maximum: real | OnTheWayTo(offset, target) && ShortTarget(target) && maximum > 0.0
      ensures OnTheWayTo(MoveHorizontalToward(root, offset, target, maximum), target)
    {
      MovingOnStaysOnTheWay(root, offset, target, maximum);
    }
  }

  lemma ActualStepsBack(root: Root)
    requires IsRoot(root)
    ensures StepsBack(root, ActualWay(), ActualReach())
  {
    forall offset, target, maximum: real | OnTheWayTo(offset, target) && ShortTarget(target) && maximum > 0.0
      ensures OnTheWayTo(MoveHorizontalToward(root, offset, ORIGIN, maximum), target)
    {
      MovingBackStaysOnTheWay(root, offset, target, maximum);
    }
  }

  lemma ReachIsShort(v: Vector3)
    requires ShortTarget(v)
    ensures ActualReach()(v)
  {
  }

  lemma SideIsInReach(root: Root, e: Encounter)
    requires IsRoot(root)
    ensures ActualReach()(SideOf(root, e))
  {
    ChosenOffsetIsShort(root, e);
    ReachIsShort(SideOf(root, e));
  }

  lemma ActualSidesInReach(root: Root)
    requires IsRoot(root)
    ensures SidesInReach(root, ActualReach())
  {
    forall e: Encounter ensures ActualReach()(SideOf(root, e)) {
      SideIsInReach(root, e);
    }
  }

  lemma ActualStarts()
    ensures StartsAnywhere(ActualWay())
  {
    forall target ensures ActualWay()(ORIGIN, target) {
      OriginIsOnTheWay(target);
    }
  }

  lemma Together(root: Root, way: Way, short: Reach)
    requires short(ORIGIN) && StartsAnywhere(way) && StepsOnward(root, way, short) && StepsBack(root, way, short) && SidesInReach(root, short)
    ensures Closed(root, way, short)
  {
  }

  lemma ActualIsClosed(root: Root)
    requires IsRoot(root)
    ensures Closed(root, ActualWay(), ActualReach())
  {
    ActualStarts();
    ActualStepsOnward(root);
    ActualStepsBack(root);
    ActualSidesInReach(root);
    OriginIsShort();
    ReachIsShort(ORIGIN);
    Together(root, ActualWay(), ActualReach());
  }

  // ---------- Every part of a tick ----------

  lemma AvoidanceKeepsSound(root: Root, way: Way, short: Reach, r: Runtime, realDelta: real)
    requires Closed(root, way, short) && SoundBy(way, short, r)
    ensures SoundBy(way, short, AdvanceAvoidance(root, r, realDelta))
  {
  }

  lemma SettleKeepsSound(root: Root, way: Way, short: Reach, r: Runtime, e: Encounter, now: real)
    requires Closed(root, way, short) && SoundBy(way, short, r)
    ensures SoundBy(way, short, Settle(root, r, e, now))
  {
    assert short(SideOf(root, e));
  }

  lemma AdvanceKeepsSound(
    cast: Cast, way: Way, short: Reach, actor: Actor, r: Runtime, clock: Clock, gameDelta: real, realDelta: real)
    requires Closed(cast.root, way, short) && SoundBy(way, short, r) && gameDelta >= 0.0
    ensures SoundBy(way, short, Advance(cast, actor, r, clock, gameDelta, realDelta).runtime)
  {
    var variant := VariantFor(cast, actor, r, clock);
    if variant.Some? {
      AvoidanceKeepsSound(cast.root, way, short, Rolled(r, variant.value, clock, gameDelta), realDelta);
    }
  }

  // ---------- Whole runs ----------

  ghost predicate AllSoundBy(way: Way, short: Reach, runtimes: map<int, Runtime>) {
    forall id :: id in runtimes ==> SoundBy(way, short, runtimes[id])
  }

  /** What a pass does to one actor keeps it sound. */
  ghost predicate StepIsSound(way: Way, short: Reach, step: (Actor, Runtime) -> Advanced) {
    forall actor, r :: SoundBy(way, short, r) ==> SoundBy(way, short, step(actor, r).runtime)
  }

  ghost predicate ShowIsSound(way: Way, short: Reach, step: (int, Runtime, State) -> Runtime) {
    forall id, r, state :: SoundBy(way, short, r) ==> SoundBy(way, short, step(id, r, state))
  }

  lemma EnteringIsSound(way: Way, short: Reach, p: FirstPass, id: int, a: Advanced)
    requires AllSoundBy(way, short, p.runtimes) && SoundBy(way, short, a.runtime)
    ensures AllSoundBy(way, short, Enter(p, id, a).runtimes)
  {
  }

  lemma {:induction false} FirstPassIsSound(
    cast: Cast, way: Way, short: Reach, runtimes: map<int, Runtime>, step: (Actor, Runtime) -> Advanced, n: nat)
    requires Casts(cast, runtimes) && AllSoundBy(way, short, runtimes) && StepIsSound(way, short, step) && n <= |cast.actors|
    ensures AllSoundBy(way, short, AdvanceFirst(cast, runtimes, step, n).runtimes)
  {
    if n > 0 {
      FirstPassIsSound(cast, way, short, runtimes, step, n - 1);
      var p, actor := AdvanceFirst(cast, runtimes, step, n - 1), cast.actors[n - 1];
      assert SoundBy(way, short, p.runtimes[actor.id]);
      EnteringIsSound(way, short, p, actor.id, step(actor, p.runtimes[actor.id]));
    }
  }

  lemma {:induction false} SecondPassIsSound(
    cast: Cast, way: Way, short: Reach, p: FirstPass, step: (int, Runtime, State) -> Runtime, n: nat)
    requires Casts(cast, p.runtimes) && AllSoundBy(way, short, p.runtimes) && ShowIsSound(way, short, step) && n <= |cast.actors|
    requires forall i :: 0 <= i < n ==> cast.actors[i].id in p.states
    ensures AllSoundBy(way, short, SettleFirst(cast, p, step, n))
  {
    if n > 0 {
      SecondPassIsSound(cast, way, short, p, step, n - 1);
    }
  }

  lemma TickIsSound(cast: Cast, way: Way, short: Reach, e: Engine, clock: Clock, crowd: int -> Encounter)
    requires Casts(cast, e.runtimes) && Closed(cast.root, way, short) && AllSoundBy(way, short, e.runtimes)
    ensures AllSoundBy(way, short, AfterTick(cast, e, clock, crowd).runtimes)
  {
    var first, second := Advancing(cast, e, clock), Settling(cast, clock, crowd);
    forall actor, r | SoundBy(way, short, r) ensures SoundBy(way, short, first(actor, r).runtime) {
      AdvanceKeepsSound(cast, way, short, actor, r, clock, GameDelta(e, clock), RealDelta(e, clock));
    }
    forall id, r, state | SoundBy(way, short, r) ensures SoundBy(way, short, second(id, r, state)) {
      SettleKeepsSound(cast.root, way, short, r, crowd(id), clock.server);
    }
    var p := AdvanceFirst(cast, e.runtimes, first, |cast.actors|);
    FirstPassIsSound(cast, way, short, e.runtimes, first, |cast.actors|);
    if !p.failed {
      SecondPassIsSound(cast, way, short, p, second, |cast.actors|);
    }
  }

  lemma {:induction false} RestoringIsSound(
    root: Root, way: Way, short: Reach, runtimes: map<int, Runtime>, checkpoints: seq<Checkpoint>)
    requires AllSoundBy(way, short, runtimes) && Closed(root, way, short)
    ensures AllSoundBy(way, short, Restore(runtimes, checkpoints))
  {
    if checkpoints != [] {
      RestoringIsSound(root, way, short, runtimes, checkpoints[..|checkpoints| - 1]);
    }
  }

  datatype Op = TickOp(clock: Clock, crowd: int -> Encounter) | RestoreOp(checkpoints: seq<Checkpoint>) | ResetOp

  function Step(cast: Cast, e: Engine, op: Op): (n: Engine)
    requires Casts(cast, e.runtimes)
    ensures n.runtimes.Keys == e.runtimes.Keys
  {
    match op
    case TickOp(clock, crowd) => AfterTick(cast, e, clock, crowd)
    case RestoreOp(checkpoints) => e.(runtimes := Restore(e.runtimes, checkpoints))
    case ResetOp => ResetSchedule(e)
  }

  function AfterOps(cast: Cast, ops: seq<Op>): (e: Engine)
    requires cast.Valid()
    ensures Casts(cast, e.runtimes)
  {
    if ops == [] then NewEngine(cast) else Step(cast, AfterOps(cast, ops[..|ops| - 1]), ops[|ops| - 1])
  }

  lemma {:induction false} EveryRunIsSoundBy(cast: Cast, way: Way, short: Reach, ops: seq<Op>)
    requires cast.Valid() && Closed(cast.root, way, short)
    ensures AllSoundBy(way, short, AfterOps(cast, ops).runtimes)
  {
    if ops != [] {
      var e := AfterOps(cast, ops[..|ops| - 1]);
      EveryRunIsSoundBy(cast, way, short, ops[..|ops| - 1]);
      match ops[|ops| - 1]
      case TickOp(clock, crowd) => TickIsSound(cast, way, short, e, clock, crowd);
      case RestoreOp(checkpoints) => RestoringIsSound(cast.root, way, short, e.runtimes, checkpoints);
      case ResetOp =>
    }
  }

  lemma SoundByMeansSound(r: Runtime)
    requires SoundBy(ActualWay(), ActualReach(), r)
    ensures Sound(r)
  {
  }

  /**
   * In every run of ticks, restores and resets, whatever the clocks and whoever is in the way, every
   * actor's runtime is sound.
   */
  lemma EveryRunIsSound(cast: Cast, ops: seq<Op>, id: int)
    requires cast.Valid() && IsRoot(cast.root) && id in AfterOps(cast, ops).runtimes
    ensures Sound(AfterOps(cast, ops).runtimes[id])
  {
    ActualIsClosed(cast.root);
    EveryRunIsSoundBy(cast, ActualWay(), ActualReach(), ops);
    SoundByMeansSound(AfterOps(cast, ops).runtimes[id]);
  }

  // ---------- What a tick does to one actor ----------

  /** The first pass gets to actor `k`: all before it can be evaluated. */
  ghost predicate PassReaches(cast: Cast, runtimes: map<int, Runtime>, step: (Actor, Runtime) -> Advanced, k: nat)
    requires Casts(cast, runtimes) && k <= |cast.actors|
  {
    forall i :: 0 <= i < k ==> step(cast.actors[i], runtimes[cast.actors[i].id]).state.Some?
  }

  /** What the first pass over `n` actors leaves of actor `k`, whether it fails or not. */
  ghost predicate PassedAt(
    cast: Cast, runtimes: map<int, Runtime>, step: (Actor, Runtime) -> Advanced, p: FirstPass, n: nat, k: nat)
    requires Casts(cast, runtimes) && n <= |cast.actors| && k < |cast.actors|
  {
    var actor := cast.actors[k];
    var a := step(actor, runtimes[actor.id]);
    && actor.id in p.runtimes
    && p.runtimes[actor.id] == (if k < n && PassReaches(cast, runtimes, step, k) then a.runtime else runtimes[actor.id])
    && (k < n && PassReaches(cast, runtimes, step, n) ==> actor.id in p.states && a.state == Some(p.states[actor.id]))
  }

  lemma EnterPasses(cast: Cast, runtimes: map<int, Runtime>, step: (Actor, Runtime) -> Advanced, p: FirstPass, n: nat, k: nat)
    requires Casts(cast, runtimes) && n < |cast.actors| && k < |cast.actors|
    requires PassReaches(cast, runtimes, step, n)
    requires PassedAt(cast, runtimes, step, p, n, k) && PassedAt(cast, runtimes, step, p, n, n)
    ensures
      var actor := cast.actors[n];
      PassedAt(cast, runtimes, step, Enter(p, actor.id, step(actor, p.runtimes[actor.id])), n + 1, k)
  {
    assert k != n ==> cast.actors[k].id != cast.actors[n].id;
  }

  lemma FailureReaches(cast: Cast, runtimes: map<int, Runtime>, step: (Actor, Runtime) -> Advanced, n: nat)
    requires Casts(cast, runtimes) && n < |cast.actors|
    ensures PassReaches(cast, runtimes, step, n + 1)
      <==> PassReaches(cast, runtimes, step, n) && step(cast.actors[n], runtimes[cast.actors[n].id]).state.Some?
  {
  }

  lemma FirstPassStep(cast: Cast, runtimes: map<int, Runtime>, step: (Actor, Runtime) -> Advanced, p: FirstPass, n: nat, k: nat)
    requires Casts(cast, runtimes) && n < |cast.actors| && k < |cast.actors|
    requires PassedAt(cast, runtimes, step, p, n, k) && PassedAt(cast, runtimes, step, p, n, n)
    requires p.failed <==> !PassReaches(cast, runtimes, step, n)
    ensures
      var actor := cast.actors[n];
      var q := if p.failed then p else Enter(p, actor.id, step(actor, p.runtimes[actor.id]));
      PassedAt(cast, runtimes, step, q, n + 1, k) && (q.failed <==> !PassReaches(cast, runtimes, step, n + 1))
  {
    FailureReaches(cast, runtimes, step, n);
    if !p.failed {
      EnterPasses(cast, runtimes, step, p, n, k);
    }
  }

  ghost predicate Passes(cast: Cast, runtimes: map<int, Runtime>, step: (Actor, Runtime) -> Advanced, p: FirstPass, n: nat)
    requires Casts(cast, runtimes) && n <= |cast.actors|
  {
    && (p.failed <==> !PassReaches(cast, runtimes, step, n))
    && forall k :: 0 <= k < |cast.actors| ==> PassedAt(cast, runtimes, step, p, n, k)
  }

  lemma FirstPassGoesOn(cast: Cast, runtimes: map<int, Runtime>, step: (Actor, Runtime) -> Advanced, p: FirstPass, n: nat)
    requires Casts(cast, runtimes) && n < |cast.actors| && Passes(cast, runtimes, step, p, n) && cast.actors[n].id in p.runtimes
    ensures
      var actor := cast.actors[n];
      Passes(cast, runtimes, step, if p.failed then p else Enter(p, actor.id, step(actor, p.runtimes[actor.id])), n + 1)
  {
    assert PassedAt(cast, runtimes, step, p, n, n);
    var actor, m := cast.actors[n], n + 1;
    var q := if p.failed then p else Enter(p, actor.id, step(actor, p.runtimes[actor.id]));
    forall k | 0 <= k < |cast.actors| ensures PassedAt(cast, runtimes, step, q, m, k) {
      FirstPassStep(cast, runtimes, step, p, n, k);
    }
    FirstPassStep(cast, runtimes, step, p, n, n);
  }

  lemma {:induction false} FirstPassAt(cast: Cast, runtimes: map<int, Runtime>, step: (Actor, Runtime) -> Advanced, n: nat)
    requires Casts(cast, runtimes) && n <= |cast.actors|
    ensures Passes(cast, runtimes, step, AdvanceFirst(cast, runtimes, step, n), n)
  {
    if n > 0 {
      FirstPassAt(cast, runtimes, step, n - 1);
      FirstPassGoesOn(cast, runtimes, step, AdvanceFirst(cast, runtimes, step, n - 1), n - 1);
    }
  }

  lemma {:induction false} SecondPassAt(cast: Cast, p: FirstPass, step: (int, Runtime, State) -> Runtime, n: nat, k: nat)
    requires Casts(cast, p.runtimes) && n <= |cast.actors| && k < |cast.actors|
    requires forall i :: 0 <= i < |cast.actors| ==> cast.actors[i].id in p.states
    ensures
      var id := cast.actors[k].id;
      SettleFirst(cast, p, step, n)[id] == if k < n then step(id, p.runtimes[id], p.states[id]) else p.runtimes[id]
  {
    if n > 0 {
      SecondPassAt(cast, p, step, n - 1, k);
      SecondPassAt(cast, p, step, n - 1, n - 1);
    }
  }

  /** A tick that succeeds treats every actor by itself. */
  lemma TickAt(cast: Cast, e: Engine, clock: Clock, crowd: int -> Encounter, k: nat)
    requires Casts(cast, e.runtimes) && TickSucceeds(cast, e, clock) && k < |cast.actors|
    ensures
      var actor := cast.actors[k];
      && AfterTick(cast, e, clock, crowd).last == Some(clock)
      && Advance(cast, actor, e.runtimes[actor.id], clock, GameDelta(e, clock), RealDelta(e, clock)).state.Some?
      && AfterTick(cast, e, clock, crowd).runtimes[actor.id]
        == TickActor(cast, actor, e.runtimes[actor.id], clock, GameDelta(e, clock), RealDelta(e, clock), crowd(actor.id))
  {
    var p := AdvanceFirst(cast, e.runtimes, Advancing(cast, e, clock), |cast.actors|);
    FirstPassAt(cast, e.runtimes, Advancing(cast, e, clock), |cast.actors|);
    assert PassedAt(cast, e.runtimes, Advancing(cast, e, clock), p, |cast.actors|, k);
    SecondPassAt(cast, p, Settling(cast, clock, crowd), |cast.actors|, k);
  }

  lemma SettlingKeepsTheClock(root: Root, r: Runtime, e: Encounter, now: real)
    ensures
      var n := Settle(root, r, e, now);
      n.day == r.day && n.variant == r.variant && n.delay == r.delay && n.shown == r.shown
  {
  }

  lemma AvoidingKeepsTheClock(root: Root, r: Runtime, realDelta: real)
    ensures
      var n := AdvanceAvoidance(root, r, realDelta);
      n.day == r.day && n.variant == r.variant && n.delay == r.delay && n.shown == r.shown
  {
  }

  /** What is published of an evaluated state. */
  function Published(r: Runtime, state: State): (s: State) {
    if r.blockedBy.Some? && state.mode == Walking then state.(mode := Blocked) else state
  }

  /** A tick of one actor: its delay, and what it shows. */
  lemma TickActorShows(
    cast: Cast, actor: Actor, r: Runtime, clock: Clock, gameDelta: real, realDelta: real, e: Encounter)
    requires Advance(cast, actor, r, clock, gameDelta, realDelta).state.Some?
    ensures
      var n := TickActor(cast, actor, r, clock, gameDelta, realDelta, e);
      && n.day == clock.day
      && n.delay == (if r.day != clock.day then 0.0 else if Frozen(r) then r.delay + gameDelta else r.delay)
      && n.variant == VariantFor(cast, actor, r, clock) && n.variant.Some? && n.variant.value in actor.variants
      && n.shown.Some?
      && var state := Evaluate(SettingFor(cast, actor, clock.rate), actor.variants[n.variant.value], EffectiveSecond(n, clock.game));
      && state.Some?
      && n.shown.value.state == Published(n, state.value)
      && n.shown.value.jump == JumpTo(cast.root, r.shown, Published(n, state.value))
  {
    var variant := VariantFor(cast, actor, r, clock).value;
    var rolled := Rolled(r, variant, clock, gameDelta);
    var moved := AdvanceAvoidance(cast.root, rolled, realDelta);
    AvoidingKeepsTheClock(cast.root, rolled, realDelta);
    SettlingKeepsTheClock(cast.root, moved, e, clock.server);
  }

  // ---------- One day ----------

  datatype DayTick = DayTick(clock: Clock, crowd: int -> Encounter)

  function AfterTicks(cast: Cast, e: Engine, ticks: seq<DayTick>): (n: Engine)
    requires Casts(cast, e.runtimes)
    ensures n.runtimes.Keys == e.runtimes.Keys
  {
    if ticks == [] then e
    else
      var last := ticks[|ticks| - 1];
      AfterTick(cast, AfterTicks(cast, e, ticks[..|ticks| - 1]), last.clock, last.crowd)
  }

  predicate LaterThatDay(before: Clock, after: Clock) {
    after.day == before.day && SameDay(before.game, after.game) && before.game <= after.game
  }

  /** Ticks on one day, none on a clock before that of the last success; any of them may fail. */
  ghost predicate OneDay(cast: Cast, e: Engine, ticks: seq<DayTick>)
    requires Casts(cast, e.runtimes)
  {
    if ticks == [] then e.last.Some?
    else
      var front, last := ticks[..|ticks| - 1], ticks[|ticks| - 1];
      var before := AfterTicks(cast, e, front);
      OneDay(cast, e, front) && before.last.Some? && LaterThatDay(before.last.value, last.clock)
  }

  /** The first pass gets to actor `k`, even if it fails there or later, and knows its variant. */
  ghost predicate Reaches(cast: Cast, e: Engine, clock: Clock, k: nat)
    requires Casts(cast, e.runtimes) && k < |cast.actors|
  {
    && PassReaches(cast, e.runtimes, Advancing(cast, e, clock), k)
    && VariantFor(cast, cast.actors[k], e.runtimes[cast.actors[k].id], clock).Some?
  }

  /** The game time that an actor spent blocked or stepping aside, by the ticks that succeeded. */
  ghost function FrozenTime(cast: Cast, e: Engine, ticks: seq<DayTick>, id: int): (t: real)
    requires Casts(cast, e.runtimes) && id in e.runtimes
  {
    if ticks == [] then 0.0
    else
      var front, last := ticks[..|ticks| - 1], ticks[|ticks| - 1];
      var before := AfterTicks(cast, e, front);
      FrozenTime(cast, e, front, id)
      + if before.last.Some? && TickSucceeds(cast, before, last.clock) && Frozen(before.runtimes[id])
        then last.clock.game - before.last.value.game else 0.0
  }

  /** A failing tick counts a delay, which the next tick will count again. */
  ghost predicate Recounts(cast: Cast, e: Engine, clock: Clock, k: nat)
    requires Casts(cast, e.runtimes) && k < |cast.actors|
  {
    && !TickSucceeds(cast, e, clock) && Reaches(cast, e, clock, k) && Frozen(e.runtimes[cast.actors[k].id])
    && e.last.Some? && e.last.value.game < clock.game
  }

  /** The game time that failing ticks counted as an actor's delay. */
  ghost function RecountedTime(cast: Cast, e: Engine, ticks: seq<DayTick>, k: nat): (t: real)
    requires Casts(cast, e.runtimes) && k < |cast.actors|
  {
    if ticks == [] then 0.0
    else
      var front, last := ticks[..|ticks| - 1], ticks[|ticks| - 1];
      var before := AfterTicks(cast, e, front);
      RecountedTime(cast, e, front, k)
      + if Recounts(cast, before, last.clock, k) then last.clock.game - before.last.value.game else 0.0
  }

  lemma SecondsAdd(before: Clock, after: Clock)
    requires LaterThatDay(before, after)
    ensures NormalizedSecond(after.game) - NormalizedSecond(before.game) == after.game - before.game
    ensures Delta(before.game, after.game) == after.game - before.game
  {
    SecondsOfOneDay(before.game, after.game);
  }

  lemma SuccessDelays(cast: Cast, e: Engine, tick: DayTick, k: nat)
    requires Casts(cast, e.runtimes) && k < |cast.actors| && TickSucceeds(cast, e, tick.clock)
    requires e.last.Some? && LaterThatDay(e.last.value, tick.clock)
    requires e.runtimes[cast.actors[k].id].day == tick.clock.day
    ensures
      var id, n := cast.actors[k].id, AfterTick(cast, e, tick.clock, tick.crowd);
      && n.last == Some(tick.clock) && n.runtimes[id].day == tick.clock.day
      && n.runtimes[id].delay == e.runtimes[id].delay
           + if Frozen(e.runtimes[id]) then tick.clock.game - e.last.value.game else 0.0
  {
    var actor := cast.actors[k];
    TickAt(cast, e, tick.clock, tick.crowd, k);
    TickActorShows(
      cast, actor, e.runtimes[actor.id], tick.clock, GameDelta(e, tick.clock), RealDelta(e, tick.clock), tick.crowd(actor.id));
    SecondsAdd(e.last.value, tick.clock);
  }

  /** A failing tick keeps its last time, but not the delays of the actors it got to. */
  lemma FailureDelays(cast: Cast, e: Engine, tick: DayTick, k: nat)
    requires Casts(cast, e.runtimes) && k < |cast.actors| && !TickSucceeds(cast, e, tick.clock)
    requires e.last.Some? && LaterThatDay(e.last.value, tick.clock)
    requires e.runtimes[cast.actors[k].id].day == tick.clock.day
    ensures
      var id, n := cast.actors[k].id, AfterTick(cast, e, tick.clock, tick.crowd);
      && n.last == e.last && n.runtimes[id].day == tick.clock.day
      && n.runtimes[id].delay == e.runtimes[id].delay
           + if Recounts(cast, e, tick.clock, k) then tick.clock.game - e.last.value.game else 0.0
  {
    var actor, step := cast.actors[k], Advancing(cast, e, tick.clock);
    var r := e.runtimes[actor.id];
    FirstPassAt(cast, e.runtimes, step, |cast.actors|);
    assert PassedAt(cast, e.runtimes, step, AdvanceFirst(cast, e.runtimes, step, |cast.actors|), |cast.actors|, k);
    SecondsAdd(e.last.value, tick.clock);
    if Reaches(cast, e, tick.clock, k) {
      var variant := VariantFor(cast, actor, r, tick.clock).value;
      AvoidingKeepsTheClock(cast.root, Rolled(r, variant, tick.clock, GameDelta(e, tick.clock)), RealDelta(e, tick.clock));
    }
  }

  /**
   * Over any ticks of one day, failed or not, an actor's delay grows by the game time it spent blocked
   * or stepping aside and by what failing ticks counted of it, and its schedule time by the rest.
   */
  lemma {:induction false} DelayIsCountedTime(cast: Cast, e: Engine, ticks: seq<DayTick>, k: nat)
    requires Casts(cast, e.runtimes) && k < |cast.actors| && OneDay(cast, e, ticks)
    requires e.last.Some? && e.runtimes[cast.actors[k].id].day == e.last.value.day
    ensures
      var id, n := cast.actors[k].id, AfterTicks(cast, e, ticks);
      var frozen, recounted := FrozenTime(cast, e, ticks, id), RecountedTime(cast, e, ticks, k);
      && n.last.Some? && n.last.value.day == e.last.value.day && n.runtimes[id].day == n.last.value.day
      && n.runtimes[id].delay == e.runtimes[id].delay + frozen + recounted
      && 0.0 <= frozen <= n.last.value.game - e.last.value.game && 0.0 <= recounted
      && EffectiveSecond(n.runtimes[id], n.last.value.game) - EffectiveSecond(e.runtimes[id], e.last.value.game)
        == n.last.value.game - e.last.value.game - frozen - recounted
  {
    if ticks != [] {
      var front, last := ticks[..|ticks| - 1], ticks[|ticks| - 1];
      DelayIsCountedTime(cast, e, front, k);
      var before := AfterTicks(cast, e, front);
      SecondsAdd(before.last.value, last.clock);
      if TickSucceeds(cast, before, last.clock) {
        SuccessDelays(cast, before, last, k);
      } else {
        FailureDelays(cast, before, last, k);
      }
    }
  }

  /** Whether a tick that follows others recounts the delay of actor `k`. */
  ghost function Recounting(cast: Cast, e: Engine, k: nat): (counted: (seq<DayTick>, DayTick) -> bool)
    requires Casts(cast, e.runtimes) && k < |cast.actors|
  {
    (front: seq<DayTick>, tick: DayTick) => Recounts(cast, AfterTicks(cast, e, front), tick.clock, k)
  }

  predicate NoneCounts(ticks: seq<DayTick>, counted: (seq<DayTick>, DayTick) -> bool) {
    forall i :: 0 <= i < |ticks| ==> !counted(ticks[..i], ticks[i])
  }

  lemma NoneCountsByOneMore(ticks: seq<DayTick>, counted: (seq<DayTick>, DayTick) -> bool)
    requires ticks != []
    ensures
      var front := ticks[..|ticks| - 1];
      NoneCounts(ticks, counted) <==> NoneCounts(front, counted) && !counted(front, ticks[|ticks| - 1])
  {
    var front := ticks[..|ticks| - 1];
    forall i | 0 <= i < |front| ensures counted(front[..i], front[i]) == counted(ticks[..i], ticks[i]) {
      assert front[..i] == ticks[..i];
    }
  }

  /** No failing tick got to the actor while it was frozen and game time had passed. */
  ghost predicate NoneRecounts(cast: Cast, e: Engine, ticks: seq<DayTick>, k: nat)
    requires Casts(cast, e.runtimes) && k < |cast.actors|
  {
    NoneCounts(ticks, Recounting(cast, e, k))
  }

  lemma {:induction false} RecountedIffSomeRecount(cast: Cast, e: Engine, ticks: seq<DayTick>, k: nat)
    requires Casts(cast, e.runtimes) && k < |cast.actors|
    ensures RecountedTime(cast, e, ticks, k) >= 0.0
    ensures RecountedTime(cast, e, ticks, k) == 0.0 <==> NoneRecounts(cast, e, ticks, k)
  {
    if ticks != [] {
      RecountedIffSomeRecount(cast, e, ticks[..|ticks| - 1], k);
      NoneCountsByOneMore(ticks, Recounting(cast, e, k));
    }
  }

  /**
   * The delay is just the time spent blocked or stepping aside, if and only if no failing tick of the day
   * got to the actor while it was frozen and game time had passed; then its schedule time never goes back.
   */
  lemma DelayIsFrozenTimeIffNoFailureCountedIt(cast: Cast, e: Engine, ticks: seq<DayTick>, k: nat)
    requires Casts(cast, e.runtimes) && k < |cast.actors| && OneDay(cast, e, ticks)
    requires e.last.Some? && e.runtimes[cast.actors[k].id].day == e.last.value.day
    ensures
      var id, n := cast.actors[k].id, AfterTicks(cast, e, ticks);
      && n.last.Some?
      && (n.runtimes[id].delay == e.runtimes[id].delay + FrozenTime(cast, e, ticks, id) <==> NoneRecounts(cast, e, ticks, k))
      && (NoneRecounts(cast, e, ticks, k) ==>
            EffectiveSecond(n.runtimes[id], n.last.value.game) >= EffectiveSecond(e.runtimes[id], e.last.value.game))
  {
    DelayIsCountedTime(cast, e, ticks, k);
    RecountedIffSomeRecount(cast, e, ticks, k);
  }

  // ---------- Jumps ----------

  /** Being shown as blocked changes nothing about jumps. */
  lemma PublishingKeepsJumps(root: Root, r: Runtime, s: State, n: Runtime, t: State)
    ensures ClassifyDiscontinuity(root, Some(Published(r, s)), Published(n, t)) == ClassifyDiscontinuity(root, Some(s), t)
    ensures Published(r, s).leg == s.leg
  {
  }

  /** Ticks of the day of the last success, none of which succeeds. */
  ghost predicate AllFail(cast: Cast, e: Engine, ticks: seq<DayTick>)
    requires Casts(cast, e.runtimes)
  {
    if ticks == [] then true
    else
      var front, last := ticks[..|ticks| - 1], ticks[|ticks| - 1];
      && AllFail(cast, e, front) && e.last.Some? && last.clock.day == e.last.value.day
      && !TickSucceeds(cast, AfterTicks(cast, e, front), last.clock)
  }

  lemma FailureShowsNothing(cast: Cast, e: Engine, tick: DayTick, k: nat)
    requires Casts(cast, e.runtimes) && k < |cast.actors| && !TickSucceeds(cast, e, tick.clock)
    requires e.runtimes[cast.actors[k].id].day == tick.clock.day && e.runtimes[cast.actors[k].id].variant.Some?
    ensures
      var r, n := e.runtimes[cast.actors[k].id], AfterTick(cast, e, tick.clock, tick.crowd);
      var m := n.runtimes[cast.actors[k].id];
      n.last == e.last && m.day == r.day && m.variant == r.variant && m.shown == r.shown
  {
    var actor, step := cast.actors[k], Advancing(cast, e, tick.clock);
    var r := e.runtimes[actor.id];
    FirstPassAt(cast, e.runtimes, step, |cast.actors|);
    assert PassedAt(cast, e.runtimes, step, AdvanceFirst(cast, e.runtimes, step, |cast.actors|), |cast.actors|, k);
    AvoidingKeepsTheClock(cast.root, Rolled(r, r.variant.value, tick.clock, GameDelta(e, tick.clock)), RealDelta(e, tick.clock));
  }

  /** What an actor is shown as, and the variant it follows, stay through failing ticks of its day. */
  lemma {:induction false} FailuresShowNothing(cast: Cast, e: Engine, ticks: seq<DayTick>, k: nat)
    requires Casts(cast, e.runtimes) && k < |cast.actors| && AllFail(cast, e, ticks)
    requires e.last.Some? && e.runtimes[cast.actors[k].id].day == e.last.value.day && e.runtimes[cast.actors[k].id].variant.Some?
    ensures
      var r, n := e.runtimes[cast.actors[k].id], AfterTicks(cast, e, ticks);
      var m := n.runtimes[cast.actors[k].id];
      n.last == e.last && m.day == r.day && m.variant == r.variant && m.shown == r.shown
  {
    if ticks != [] {
      var front, last := ticks[..|ticks| - 1], ticks[|ticks| - 1];
      FailuresShowNothing(cast, e, front, k);
      FailureShowsNothing(cast, AfterTicks(cast, e, front), last, k);
    }
  }

  /** Two ticks that succeed, and nothing but failing ticks of that day between them. */
  ghost predicate Successive(cast: Cast, e: Engine, first: DayTick, failing: seq<DayTick>, second: DayTick)
    requires Casts(cast, e.runtimes)
  {
    var mid := AfterTick(cast, e, first.clock, first.crowd);
    && TickSucceeds(cast, e, first.clock) && AllFail(cast, mid, failing)
    && TickSucceeds(cast, AfterTicks(cast, mid, failing), second.clock)
    && second.clock.day == first.clock.day
  }

  function AfterFailing(cast: Cast, e: Engine, first: DayTick, failing: seq<DayTick>): (n: Engine)
    requires Casts(cast, e.runtimes)
    ensures n.runtimes.Keys == e.runtimes.Keys
  {
    AfterTicks(cast, AfterTick(cast, e, first.clock, first.crowd), failing)
  }

  /**
   * Two successive successful ticks of one day, at one pace of the clock, never announce a jump for an actor
   * that both find on the same route, or in the same phase of the same round, on one day of its schedule,
   * whoever blocked it and wherever it has stepped aside to, unless failing ticks between them turned its
   * schedule back by more than a second.
   */
  lemma SameRouteIsNeverAJump(cast: Cast, e: Engine, first: DayTick, failing: seq<DayTick>, second: DayTick, k: nat)
    requires Casts(cast, e.runtimes) && IsRoot(cast.root) && k < |cast.actors|
    ensures Successive(cast, e, first, failing, second) && first.clock.rate == second.clock.rate ==>
      var id, mid, late := cast.actors[k].id, AfterTick(cast, e, first.clock, first.crowd), AfterFailing(cast, e, first, failing);
      ShowsNoJump(mid.runtimes[id], first.clock, AfterTick(cast, late, second.clock, second.crowd).runtimes[id], second.clock)
  {
    if Successive(cast, e, first, failing, second) && first.clock.rate == second.clock.rate {
      var actor := cast.actors[k];
      var r, mid := e.runtimes[actor.id], AfterTick(cast, e, first.clock, first.crowd);
      TickAt(cast, e, first.clock, first.crowd, k);
      TickActorShows(cast, actor, r, first.clock, GameDelta(e, first.clock), RealDelta(e, first.clock), first.crowd(actor.id));
      FailuresShowNothing(cast, mid, failing, k);
      var late := AfterFailing(cast, e, first, failing);
      var n, end := late.runtimes[actor.id], AfterTick(cast, late, second.clock, second.crowd);
      TickAt(cast, late, second.clock, second.crowd, k);
      TickActorShows(cast, actor, n, second.clock, GameDelta(late, second.clock), RealDelta(late, second.clock), second.crowd(actor.id));
      NoJumpOnOneLeg(cast, actor, mid.runtimes[actor.id], end.runtimes[actor.id], first.clock, second.clock);
    }
  }

  /** On one leg, on one day of the schedule and no more than a second earlier in it, no jump is announced. */
  ghost predicate ShowsNoJump(before: Runtime, first: Clock, after: Runtime, second: Clock) {
    var e, f := EffectiveSecond(before, first.game), EffectiveSecond(after, second.game);
    && before.shown.Some? && after.shown.Some?
    && var s, t := before.shown.value.state, after.shown.value.state;
    SameDay(e, f) && e - 1.0 <= f && s.leg == t.leg && s.leg != NotOnRoute ==> after.shown.value.jump == None
  }

  lemma NoJumpOnOneLeg(cast: Cast, actor: Actor, n: Runtime, m: Runtime, first: Clock, second: Clock)
    requires IsRoot(cast.root) && first.rate == second.rate
    requires n.variant.Some? && m.variant == n.variant && n.variant.value in actor.variants
    ensures
      var setting, journeys := SettingFor(cast, actor, first.rate), actor.variants[n.variant.value];
      var s, t := Evaluate(setting, journeys, EffectiveSecond(n, first.game)), Evaluate(setting, journeys, EffectiveSecond(m, second.game));
      SameDay(EffectiveSecond(n, first.game), EffectiveSecond(m, second.game))
      && EffectiveSecond(n, first.game) - 1.0 <= EffectiveSecond(m, second.game)
      && s.Some? && t.Some? && Published(n, s.value).leg == Published(m, t.value).leg && Published(m, t.value).leg != NotOnRoute ==>
        ClassifyDiscontinuity(cast.root, Some(Published(n, s.value)), Published(m, t.value)) == None
  {
    var setting, journeys := SettingFor(cast, actor, first.rate), actor.variants[n.variant.value];
    var e, f := EffectiveSecond(n, first.game), EffectiveSecond(m, second.game);
    var s, t := Evaluate(setting, journeys, e), Evaluate(setting, journeys, f);
    if s.Some? && t.Some? {
      PublishingKeepsJumps(cast.root, n, s.value, m, t.value);
      if SameDay(e, f) && e - 1.0 <= f && s.value.leg == t.value.leg && t.value.leg != NotOnRoute {
        SameLegIsNoJump(setting, journeys, e, f);
      }
    }
  }
}
