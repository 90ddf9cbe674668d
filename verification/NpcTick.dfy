/** The tick of the crowd: delays, blockers and sidesteps (internal/npc/engine.go, internal/npc/avoidance.go). */
module NpcTick {
  import opened Common
  import opened NpcRoute
  import opened NpcSchedule

  const CLEAR_HYSTERESIS := 0.5
  const BLOCKED_ENCOUNTER_RESET := 2.0
  const NPC_AVOIDANCE_PATIENCE := 1.0
  const AVOIDANCE_PATIENCE := 15.0
  const SIDESTEP_SPEED := 1.0

  datatype Phase = NoPhase | Sidestep | Passing | Returning

  datatype Blocker = Npc(id: int) | Player(id: int)

  /** What was shown last: the scheduled state, the sidestep added to it, and the jump announced with it. */
  datatype Shown = Shown(state: State, offset: Vector3, jump: Option<Jump>)

  /** Instants of the server's clock are in seconds. */
  datatype Runtime = Runtime(
    day: int, variant: Option<nat>, delay: real,
    blockedBy: Option<Blocker>, blockedSince: Option<real>, clearSince: Option<real>,
    phase: Phase, offset: Vector3, target: Vector3, motion: real, shown: Option<Shown>)

  const NEW_RUNTIME := Runtime(-1, None, 0.0, None, None, None, NoPhase, ORIGIN, ORIGIN, 0.0, None)

  // ---------- Sidesteps ----------

  function StartAvoidance(r: Runtime, target: Vector3): (n: Runtime) {
    r.(phase := Sidestep, offset := ORIGIN, target := target, motion := 0.0, clearSince := None)
  }

  function StartReturn(r: Runtime): (n: Runtime) {
    r.(phase := Returning, motion := 0.0, clearSince := None)
  }

  function ResumeSidestep(r: Runtime): (n: Runtime) {
    r.(phase := Sidestep, motion := 0.0, clearSince := None)
  }

  function ResetAvoidance(r: Runtime): (n: Runtime) {
    r.(phase := NoPhase, offset := ORIGIN, target := ORIGIN, motion := 0.0)
  }

  function MoveHorizontalToward(root: Root, current: Vector3, target: Vector3, maximum: real): (v: Vector3) {
    var dx, dz := target.x - current.x, target.z - current.z;
    var distance := Hypot(root, dx, dz);
    if distance == 0.0 || distance <= maximum then target
    else
      var scale := maximum / distance;
      Vector3(current.x + Times(dx, scale), 0.0, current.z + Times(dz, scale))
  }

  function AdvanceAvoidance(root: Root, r: Runtime, realDelta: real): (n: Runtime) {
    if realDelta <= 0.0 then r
    else
      match r.phase
      case Sidestep =>
        var offset := MoveHorizontalToward(root, r.offset, r.target, SIDESTEP_SPEED * realDelta);
        r.(motion := r.motion + realDelta, offset := offset, phase := if offset == r.target then Passing else Sidestep)
      case Returning =>
        var offset := MoveHorizontalToward(root, r.offset, ORIGIN, SIDESTEP_SPEED * realDelta);
        var moved := r.(motion := r.motion + realDelta, offset := offset);
        if offset == ORIGIN then ResetAvoidance(moved) else moved
      case NoPhase => r
      case Passing => r
  }

  /** One unit to the left or the right of the direction of travel, whichever side is clearer. */
  function ChooseAvoidanceOffset(root: Root, direction: Vector3, leftScore: real, rightScore: real, stableRight: bool): (v: Vector3) {
    var length := Hypot(root, direction.x, direction.z);
    if length == 0.0 then ORIGIN
    else
      var left := Vector3(-direction.z / length, 0.0, direction.x / length);
      var right := Vector3(-left.x, 0.0, -left.z);
      if leftScore > rightScore then left
      else if rightScore > leftScore then right
      else if stableRight then right
      else left
  }

  // ---------- Blockers ----------

  /** What an actor meets in one tick: blockers of its scheduled and of its shown position, and a side to step to. */
  datatype Encounter = Encounter(
    base: Option<Blocker>, detected: Option<Blocker>, direction: Vector3, leftScore: real, rightScore: real, stableRight: bool)

  function SideOf(root: Root, e: Encounter): (side: Vector3) {
    ChooseAvoidanceOffset(root, e.direction, e.leftScore, e.rightScore, e.stableRight)
  }

  function Patience(blocker: Blocker): (p: real) {
    if blocker.Npc? then NPC_AVOIDANCE_PATIENCE else AVOIDANCE_PATIENCE
  }

  predicate LongerThan(since: Option<real>, now: real, span: real) {
    since.None? || now - since.value >= span
  }

  function SettleAvoiding(r: Runtime, base: Option<Blocker>, now: real): (n: Runtime) {
    var moved :=
      if r.phase == Passing && base.None? then
        var clear := r.clearSince.GetOr(now);
        if now - clear >= CLEAR_HYSTERESIS then StartReturn(r) else r.(clearSince := Some(clear))
      else if r.phase == Passing then r.(clearSince := None)
      else if r.phase == Returning && base.Some? then ResumeSidestep(r)
      else r;
    moved.(blockedBy := None, blockedSince := None)
  }

  function SettleBlocked(r: Runtime, blocker: Blocker, side: Vector3, now: real): (n: Runtime) {
    var since := r.blockedSince.GetOr(now);
    if now - since >= Patience(blocker) then StartAvoidance(r.(blockedBy := None, blockedSince := None), side)
    else r.(blockedBy := Some(blocker), blockedSince := Some(since), clearSince := None)
  }

  function SettleReleasing(r: Runtime, side: Vector3, now: real): (n: Runtime)
    requires r.blockedBy.Some?
  {
    var clear, byNpc := r.clearSince.GetOr(now), r.blockedBy.value.Npc?;
    if byNpc && LongerThan(r.blockedSince, now, NPC_AVOIDANCE_PATIENCE) then
      StartAvoidance(r.(blockedBy := None, blockedSince := None), side)
    else
      var noted := r.(clearSince := Some(clear));
      if now - clear >= (if byNpc then BLOCKED_ENCOUNTER_RESET else CLEAR_HYSTERESIS) then noted.(blockedBy := None) else noted
  }

  function Settle(root: Root, r: Runtime, e: Encounter, now: real): (n: Runtime) {
    var side := SideOf(root, e);
    if r.phase != NoPhase then SettleAvoiding(r, e.base, now)
    else if e.detected.Some? then SettleBlocked(r, e.detected.value, side, now)
    else if r.blockedBy.Some? then SettleReleasing(r, side, now)
    else if r.blockedSince.Some? && r.clearSince.Some? && now - r.clearSince.value >= BLOCKED_ENCOUNTER_RESET then
      r.(blockedSince := None, clearSince := None)
    else r
  }

  // ---------- The tick ----------

  datatype Actor = Actor(id: int, area: string, step: real, variants: map<nat, seq<Journey>>)

  /** `select` names the schedule variant of an actor on the day of a game time; None is an error. */
  datatype Cast = Cast(root: Root, worlds: map<string, string>, actors: seq<Actor>, select: (int, real) -> Option<nat>) {
    ghost predicate Valid() {
      forall i, j :: 0 <= i < j < |actors| ==> actors[i].id != actors[j].id
    }
  }

  /** Server and game times in seconds, and how many real seconds a game second takes. */
  datatype Clock = Clock(server: real, game: real, day: int, rate: real)

  datatype Engine = Engine(runtimes: map<int, Runtime>, last: Option<Clock>)

  function NewEngine(cast: Cast): (e: Engine) {
    Engine(map i | 0 <= i < |cast.actors| :: cast.actors[i].id := NEW_RUNTIME, None)
  }

  function Delta(before: real, after: real): (d: real)
    ensures d >= 0.0
  {
    if after - before < 0.0 || after - before > GAME_DAY_SECONDS then 0.0 else after - before
  }

  function GameDelta(e: Engine, clock: Clock): (d: real)
    ensures d >= 0.0
  {
    if e.last.Some? && e.last.value.day == clock.day then Delta(e.last.value.game, clock.game) else 0.0
  }

  function RealDelta(e: Engine, clock: Clock): (d: real)
    ensures d >= 0.0
  {
    if e.last.Some? && e.last.value.day == clock.day then Delta(e.last.value.server, clock.server) else 0.0
  }

  predicate Frozen(r: Runtime) {
    r.blockedBy.Some? || r.phase == Sidestep
  }

  /** A new day starts afresh; on the same day a frozen actor falls behind. */
  function Rolled(r: Runtime, variant: nat, clock: Clock, gameDelta: real): (n: Runtime) {
    var chosen := r.(variant := Some(variant));
    if r.day != clock.day then
      ResetAvoidance(chosen.(day := clock.day, delay := 0.0, blockedBy := None, blockedSince := None, clearSince := None))
    else if Frozen(r) then chosen.(delay := r.delay + gameDelta)
    else chosen
  }

  function EffectiveSecond(r: Runtime, game: real): (s: real) {
    NormalizedSecond(game) - r.delay
  }

  function SettingFor(cast: Cast, actor: Actor, rate: real): (s: Setting) {
    Setting(cast.root, cast.worlds, actor.area, actor.step, rate)
  }

  function VariantFor(cast: Cast, actor: Actor, r: Runtime, clock: Clock): (v: Option<nat>) {
    if r.day != clock.day || r.variant.None? then cast.select(actor.id, clock.game) else r.variant
  }

  datatype Advanced = Advanced(runtime: Runtime, state: Option<State>)

  /** The first pass over an actor; a schedule that cannot be evaluated leaves the delay counted. */
  function Advance(cast: Cast, actor: Actor, r: Runtime, clock: Clock, gameDelta: real, realDelta: real): (a: Advanced) {
    match VariantFor(cast, actor, r, clock)
    case None => Advanced(r, None)
    case Some(variant) =>
      var moved := AdvanceAvoidance(cast.root, Rolled(r, variant, clock, gameDelta), realDelta);
      Advanced(
        moved,
        if variant !in actor.variants then None
        else Evaluate(SettingFor(cast, actor, clock.rate), actor.variants[variant], EffectiveSecond(moved, clock.game)))
  }

  /** The jump between what was shown and what is scheduled now, with both sidesteps taken away. */
  function JumpTo(root: Root, before: Option<Shown>, state: State): (jump: Option<Jump>) {
    ClassifyDiscontinuity(root, match before case None => None case Some(shown) => Some(shown.state), state)
  }

  function Show(root: Root, r: Runtime, state: State): (n: Runtime) {
    var published := if r.blockedBy.Some? && state.mode == Walking then state.(mode := Blocked) else state;
    r.(shown := Some(Shown(published, r.offset, JumpTo(root, r.shown, published))))
  }

  function TickActor(cast: Cast, actor: Actor, r: Runtime, clock: Clock, gameDelta: real, realDelta: real, e: Encounter): (n: Runtime) {
    var a := Advance(cast, actor, r, clock, gameDelta, realDelta);
    match a.state
    case None => a.runtime
    case Some(state) => Show(cast.root, Settle(cast.root, a.runtime, e, clock.server), state)
  }

  /** `runtimes` and `states` after the first `n` actors; a failure ends the tick there. */
  datatype FirstPass = FirstPass(runtimes: map<int, Runtime>, states: map<int, State>, failed: bool)

  ghost predicate Casts(cast: Cast, runtimes: map<int, Runtime>) {
    cast.Valid() && forall i :: 0 <= i < |cast.actors| ==> cast.actors[i].id in runtimes
  }

  /** The first pass, given what it does to one actor. */
  function AdvanceFirst(cast: Cast, runtimes: map<int, Runtime>, step: (Actor, Runtime) -> Advanced, n: nat): (p: FirstPass)
    requires Casts(cast, runtimes) && n <= |cast.actors|
    ensures p.runtimes.Keys == runtimes.Keys
    ensures !p.failed ==> forall i :: 0 <= i < n ==> cast.actors[i].id in p.states
  {
    if n == 0 then FirstPass(runtimes, map[], false)
    else
      var p, actor := AdvanceFirst(cast, runtimes, step, n - 1), cast.actors[n - 1];
      if p.failed then p else Enter(p, actor.id, step(actor, p.runtimes[actor.id]))
  }

  function Enter(p: FirstPass, id: int, a: Advanced): (q: FirstPass) {
    match a.state
    case None => FirstPass(p.runtimes[id := a.runtime], p.states, true)
    case Some(state) => FirstPass(p.runtimes[id := a.runtime], p.states[id := state], false)
  }

  /** The second pass, given what it makes of one actor. */
  function SettleFirst(cast: Cast, p: FirstPass, step: (int, Runtime, State) -> Runtime, n: nat): (runtimes: map<int, Runtime>)
    requires Casts(cast, p.runtimes) && n <= |cast.actors|
    requires forall i :: 0 <= i < n ==> cast.actors[i].id in p.states
    ensures runtimes.Keys == p.runtimes.Keys
  {
    if n == 0 then p.runtimes
    else
      var before, id := SettleFirst(cast, p, step, n - 1), cast.actors[n - 1].id;
      before[id := step(id, before[id], p.states[id])]
  }

  function Advancing(cast: Cast, e: Engine, clock: Clock): (step: (Actor, Runtime) -> Advanced) {
    (actor, r) => Advance(cast, actor, r, clock, GameDelta(e, clock), RealDelta(e, clock))
  }

  function Settling(cast: Cast, clock: Clock, crowd: int -> Encounter): (step: (int, Runtime, State) -> Runtime) {
    (id, r, state) => Show(cast.root, Settle(cast.root, r, crowd(id), clock.server), state)
  }

  /** A tick that fails on an actor keeps its last time, and what the first pass did so far. */
  function AfterTick(cast: Cast, e: Engine, clock: Clock, crowd: int -> Encounter): (n: Engine)
    requires Casts(cast, e.runtimes)
    ensures n.runtimes.Keys == e.runtimes.Keys
  {
    var p := AdvanceFirst(cast, e.runtimes, Advancing(cast, e, clock), |cast.actors|);
    if p.failed then Engine(p.runtimes, e.last)
    else Engine(SettleFirst(cast, p, Settling(cast, clock, crowd), |cast.actors|), Some(clock))
  }

  predicate TickSucceeds(cast: Cast, e: Engine, clock: Clock)
    requires Casts(cast, e.runtimes)
  {
    !AdvanceFirst(cast, e.runtimes, Advancing(cast, e, clock), |cast.actors|).failed
  }

  // ---------- Checkpoints and resets ----------

  datatype Checkpoint = Checkpoint(id: int, day: int, delay: real)

  function RestoreOne(runtimes: map<int, Runtime>, c: Checkpoint): (m: map<int, Runtime>) {
    if c.id !in runtimes then runtimes
    else
      var delay := if c.delay < 0.0 then 0.0 else c.delay;
      runtimes[c.id := ResetAvoidance(runtimes[c.id].(day := c.day, delay := delay, blockedBy := None, blockedSince := None))]
  }

  function Restore(runtimes: map<int, Runtime>, checkpoints: seq<Checkpoint>): (m: map<int, Runtime>)
    ensures m.Keys == runtimes.Keys
  {
    if checkpoints == [] then runtimes
    else RestoreOne(Restore(runtimes, checkpoints[..|checkpoints| - 1]), checkpoints[|checkpoints| - 1])
  }

  function ResetRuntime(r: Runtime): (n: Runtime) {
    ResetAvoidance(r.(day := -1, variant := None, delay := 0.0, blockedBy := None, blockedSince := None, clearSince := None))
  }

  function ResetSchedule(e: Engine): (n: Engine)
    ensures n.runtimes.Keys == e.runtimes.Keys
  {
    Engine(map id | id in e.runtimes :: ResetRuntime(e.runtimes[id]), None)
  }

  // ---------- The engine in place ----------

  class CrowdEngine {
    const cast: Cast
    var runtimes: map<int, Runtime>
    var last: Option<Clock>

    ghost function Value(): (e: Engine)
      reads this
    {
      Engine(runtimes, last)
    }

    ghost predicate Valid()
      reads this
    {
      Casts(cast, runtimes)
    }

    constructor (cast: Cast)
      requires cast.Valid()
      ensures Valid() && this.cast == cast && Value() == NewEngine(cast)
    {
      this.cast := cast;
      runtimes := map i | 0 <= i < |cast.actors| :: cast.actors[i].id := NEW_RUNTIME;
      last := None;
    }

    /** The first pass: rolls the delays on, moves the sidesteps and evaluates the schedules. */
    method AdvanceAll(step: (Actor, Runtime) -> Advanced) returns (states: map<int, State>, ok: bool)
      requires Valid()
      modifies this`runtimes
      ensures Valid()
      ensures
        var p := AdvanceFirst(cast, old(runtimes), step, |cast.actors|);
        runtimes == p.runtimes && ok == !p.failed && (ok ==> states == p.states)
    {
      states := map[];
      ghost var before := runtimes;
      for n := 0 to |cast.actors|
        invariant Valid()
        invariant FirstPass(runtimes, states, false) == AdvanceFirst(cast, before, step, n)
      {
        var actor := cast.actors[n];
        var a := step(actor, runtimes[actor.id]);
        runtimes := runtimes[actor.id := a.runtime];
        if a.state.None? {
          FailureStays(cast, before, step, n + 1, |cast.actors|);
          return states, false;
        }
        states := states[actor.id := a.state.value];
      }
      return states, true;
    }

    /** The second pass: meets the blockers and shows the states. */
    method SettleAll(states: map<int, State>, step: (int, Runtime, State) -> Runtime)
      requires Valid() && forall i :: 0 <= i < |cast.actors| ==> cast.actors[i].id in states
      modifies this`runtimes
      ensures Valid()
      ensures runtimes == SettleFirst(cast, FirstPass(old(runtimes), states, false), step, |cast.actors|)
    {
      ghost var pass := FirstPass(runtimes, states, false);
      for n := 0 to |cast.actors|
        invariant Valid() && runtimes == SettleFirst(cast, pass, step, n)
      {
        var id := cast.actors[n].id;
        runtimes := runtimes[id := step(id, runtimes[id], states[id])];
      }
    }

    method Tick(clock: Clock, crowd: int -> Encounter) returns (ok: bool)
      requires Valid()
      modifies this
      ensures Valid() && Value() == AfterTick(cast, old(Value()), clock, crowd)
      ensures ok == TickSucceeds(cast, old(Value()), clock)
    {
      var states;
      states, ok := AdvanceAll(Advancing(cast, Engine(runtimes, last), clock));
      if !ok { return; }
      SettleAll(states, Settling(cast, clock, crowd));
      last := Some(clock);
    }

    method RestoreCheckpoints(checkpoints: seq<Checkpoint>)
      requires Valid()
      modifies this`runtimes
      ensures Valid() && runtimes == Restore(old(runtimes), checkpoints)
    {
      for n := 0 to |checkpoints|
        invariant Valid() && runtimes == Restore(old(runtimes), checkpoints[..n])
      {
        var c := checkpoints[n];
        assert checkpoints[..n + 1][..n] == checkpoints[..n];
        if c.id in runtimes {
          var delay := if c.delay < 0.0 then 0.0 else c.delay;
          var resumed := runtimes[c.id].(day := c.day, delay := delay, blockedBy := None, blockedSince := None);
          runtimes := runtimes[c.id := resumed.(phase := NoPhase, offset := ORIGIN, target := ORIGIN, motion := 0.0)];
        }
      }
      assert checkpoints[..|checkpoints|] == checkpoints;
    }

    method ResetScheduleState()
      requires Valid()
      modifies this
      ensures Valid() && Value() == ResetSchedule(old(Value()))
    {
      runtimes := map id | id in runtimes ::
        runtimes[id].(
          day := -1, variant := None, delay := 0.0, blockedBy := None, blockedSince := None, clearSince := None,
          phase := NoPhase, offset := ORIGIN, target := ORIGIN, motion := 0.0);
      last := None;
      assert forall id :: id in old(runtimes) ==> runtimes[id] == ResetRuntime(old(runtimes)[id]);
      assert runtimes == ResetSchedule(old(Value())).runtimes;
    }

    /** What is saved: an entry an actor, with its day and delay. */
    method Checkpoints() returns (saved: seq<Checkpoint>)
      requires Valid()
      ensures |saved| == |cast.actors|
      ensures forall n :: 0 <= n < |saved| ==>
        var r := runtimes[cast.actors[n].id];
        saved[n] == Checkpoint(cast.actors[n].id, r.day, r.delay)
    {
      saved := [];
      for n := 0 to |cast.actors|
        invariant |saved| == n
        invariant forall k :: 0 <= k < n ==>
          var r := runtimes[cast.actors[k].id];
          saved[k] == Checkpoint(cast.actors[k].id, r.day, r.delay)
      {
        var actor := cast.actors[n];
        saved := saved + [Checkpoint(actor.id, runtimes[actor.id].day, runtimes[actor.id].delay)];
      }
    }
  }

  lemma {:induction false} FailureStays(
    cast: Cast, runtimes: map<int, Runtime>, step: (Actor, Runtime) -> Advanced, m: nat, n: nat)
    requires Casts(cast, runtimes) && m <= n <= |cast.actors| && AdvanceFirst(cast, runtimes, step, m).failed
    ensures AdvanceFirst(cast, runtimes, step, n) == AdvanceFirst(cast, runtimes, step, m)
  {
    if m < n {
      FailureStays(cast, runtimes, step, m, n - 1);
    }
  }
}
