/** How long actors wait, how fast they step aside, and what a restart keeps (internal/npc/avoidance.go, internal/npc/engine.go). */
module NpcEncounters {
  import opened Common
  import opened NpcRoute
  import opened NpcCircuit
  import opened NpcSchedule
  import opened NpcScheduleTheorems
  import opened NpcTick
  import opened NpcTickTheorems

  // ---------- Waiting ----------

  /** Actors wait a second for each other, and fifteen for a player. */
  function WaitFor(blocker: Blocker): (seconds: real) {
    match blocker case Npc(_) => 1.0 case Player(_) => 15.0
  }

  /** Steps aside from where its schedule has it, to the clearer side. */
  predicate StepsAside(root: Root, r: Runtime, e: Encounter, n: Runtime) {
    && n.phase == Sidestep && n.offset == ORIGIN && n.target == SideOf(root, e)
    && n.blockedBy == None && n.blockedSince == None && n.clearSince == None
    && n == r.(phase := n.phase, offset := n.offset, target := n.target, motion := 0.0, blockedBy := None, blockedSince := None, clearSince := None)
  }

  /** An actor in somebody's way waits from when it first was, and steps aside once that has been long enough. */
  lemma BlockedActorsWait(root: Root, r: Runtime, e: Encounter, now: real)
    requires r.phase == NoPhase && e.detected.Some?
    ensures
      var n, since := Settle(root, r, e, now), r.blockedSince.GetOr(now);
      if now - since >= WaitFor(e.detected.value) then StepsAside(root, r, e, n)
      else n == r.(blockedBy := e.detected, blockedSince := Some(since), clearSince := None)
  {
  }

  /** One whose way is clear goes on half a second after a player left it, two after another actor; but it steps aside first if it waited a second for an actor. */
  lemma ReleasedActorsGoOn(root: Root, r: Runtime, e: Encounter, now: real)
    requires r.phase == NoPhase && e.detected == None && r.blockedBy.Some?
    ensures
      var n, clear := Settle(root, r, e, now), r.clearSince.GetOr(now);
      if r.blockedBy.value.Npc? && (r.blockedSince == None || now - r.blockedSince.value >= 1.0) then StepsAside(root, r, e, n)
      else
        var pause := if r.blockedBy.value.Npc? then 2.0 else 0.5;
        n == r.(clearSince := Some(clear), blockedBy := if now - clear >= pause then None else r.blockedBy)
  {
  }

  /** An encounter is forgotten two seconds after the way was clear. */
  lemma EncountersAreForgotten(root: Root, r: Runtime, e: Encounter, now: real)
    requires r.phase == NoPhase && e.detected == None && r.blockedBy == None
    ensures
      var n := Settle(root, r, e, now);
      n == if r.blockedSince.Some? && r.clearSince.Some? && now - r.clearSince.value >= 2.0
           then r.(blockedSince := None, clearSince := None) else r
  {
  }

  /** An actor beside its way comes back when that has been clear for half a second, and goes aside again if it is not. */
  lemma AsideUntilClear(root: Root, r: Runtime, e: Encounter, now: real)
    requires r.phase != NoPhase
    ensures
      var n, clear := Settle(root, r, e, now), r.clearSince.GetOr(now);
      && n.blockedBy == None && n.blockedSince == None && n.offset == r.offset && n.target == r.target && n.delay == r.delay
      && n.phase
         == (if r.phase == Passing && e.base == None && now - clear >= 0.5 then Returning
             else if r.phase == Returning && e.base.Some? then Sidestep
             else r.phase)
      && (n.phase == Passing ==> n.clearSince == if e.base == None then Some(clear) else None)
  {
  }

  // ---------- Stepping ----------

  lemma HypotScales(root: Root, x: real, z: real, scale: real)
    requires IsRoot(root) && scale >= 0.0
    ensures Hypot(root, Times(x, scale), Times(z, scale)) == Times(Hypot(root, x, z), scale)
  {
    HypotIsRoot(root, x, z);
    HypotIsRoot(root, Times(x, scale), Times(z, scale));
    SquareOfProduct(x, scale);
    SquareOfProduct(z, scale);
    SumTimes(Square(x), Square(z), Square(scale));
    ProductOfRoots(Hypot(root, x, z), scale, Hypot(root, Times(x, scale), Times(z, scale)));
  }

  lemma SumTimes(a: real, b: real, c: real)
    ensures Times(a, c) + Times(b, c) == Times(a + b, c)
  {
  }

  /** A step is as long as it may be, or ends at its goal. */
  lemma StepsAreMeasured(root: Root, current: Vector3, goal: Vector3, maximum: real)
    requires IsRoot(root) && maximum > 0.0
    ensures
      var n := MoveHorizontalToward(root, current, goal, maximum);
      if HorizontalDistance(root, goal, current) <= maximum then n == goal
      else HorizontalDistance(root, n, current) == maximum
  {
    var dx, dz := goal.x - current.x, goal.z - current.z;
    var distance := Hypot(root, dx, dz);
    HypotIsRoot(root, dx, dz);
    if distance > maximum {
      var scale := maximum / distance;
      HypotScales(root, dx, dz, scale);
      QuotientTimes(maximum, distance);
      assert Times(distance, scale) == Times(scale, distance);
      var n := MoveHorizontalToward(root, current, goal, maximum);
      assert n.x - current.x == Times(dx, scale) && n.z - current.z == Times(dz, scale);
    }
  }

  /** An actor steps aside, and back, at one unit a second, and is there when it has reached its goal. */
  lemma SidestepsTakeTheirTime(root: Root, r: Runtime, seconds: real)
    requires IsRoot(root) && seconds > 0.0 && r.phase in {Sidestep, Returning}
    ensures
      var n, goal := AdvanceAvoidance(root, r, seconds), if r.phase == Sidestep then r.target else ORIGIN;
      && (HorizontalDistance(root, goal, r.offset) <= seconds ==>
            n.offset == goal && n.phase == if r.phase == Sidestep then Passing else NoPhase)
      && (HorizontalDistance(root, goal, r.offset) > seconds && n.offset != goal ==>
            n.phase == r.phase && n.target == r.target && HorizontalDistance(root, n.offset, r.offset) == seconds)
      && n.motion == (if n.phase == NoPhase then 0.0 else r.motion + seconds)
  {
    StepsAreMeasured(root, r.offset, if r.phase == Sidestep then r.target else ORIGIN, seconds);
  }

  /** One that is not moving beside its way, or for whom no time passes, stays as it is. */
  lemma OthersStay(root: Root, r: Runtime, seconds: real)
    requires seconds <= 0.0 || r.phase in {NoPhase, Passing}
    ensures AdvanceAvoidance(root, r, seconds) == r
  {
  }

  // ---------- What is shown ----------

  /** Where the schedule has an actor that is `delay` behind the time of day. */
  function Scheduled(cast: Cast, actor: Actor, variant: nat, delay: real, clock: Clock): (s: Option<State>) {
    if variant !in actor.variants then None
    else Evaluate(SettingFor(cast, actor, clock.rate), actor.variants[variant], NormalizedSecond(clock.game) - delay)
  }

  lemma AvoidanceKeepsTheSchedule(root: Root, r: Runtime, seconds: real)
    ensures
      var n := AdvanceAvoidance(root, r, seconds);
      n.variant == r.variant && n.delay == r.delay && n.shown == r.shown && n.day == r.day
  {
  }

  lemma SettlingKeepsTheSchedule(root: Root, r: Runtime, e: Encounter, now: real)
    ensures
      var n := Settle(root, r, e, now);
      n.variant == r.variant && n.delay == r.delay && n.shown == r.shown && n.day == r.day
  {
  }

  lemma AdvancedAsScheduled(cast: Cast, actor: Actor, r: Runtime, clock: Clock, gameDelta: real, realDelta: real)
    ensures
      var a := Advance(cast, actor, r, clock, gameDelta, realDelta);
      && a.runtime.shown == r.shown
      && (a.state.Some? ==>
            a.runtime.variant.Some? && a.state == Scheduled(cast, actor, a.runtime.variant.value, a.runtime.delay, clock))
  {
    var variant := VariantFor(cast, actor, r, clock);
    if variant.Some? {
      AvoidanceKeepsTheSchedule(cast.root, Rolled(r, variant.value, clock, gameDelta), realDelta);
    }
  }

  /** What is shown of an actor: where it is scheduled, as blocked if it would walk and may not, beside its way as far as it stepped. */
  predicate ShownAs(root: Root, before: Option<Shown>, n: Runtime, scheduled: State) {
    && n.shown.Some? && n.shown.value.offset == n.offset
    && n.shown.value.state == (if n.blockedBy.Some? && scheduled.mode == Walking then scheduled.(mode := Blocked) else scheduled)
    && n.shown.value.jump == JumpTo(root, before, n.shown.value.state)
  }

  lemma ShownAsItIs(root: Root, r: Runtime, state: State)
    ensures
      var n := Show(root, r, state);
      ShownAs(root, r.shown, n, state) && n.variant == r.variant && n.delay == r.delay
  {
  }

  /** An actor that a tick advances is shown where its schedule had it before its delay. */
  lemma ShownAsScheduledBeforeTheDelay(
    cast: Cast, actor: Actor, r: Runtime, clock: Clock, gameDelta: real, realDelta: real, e: Encounter)
    requires Advance(cast, actor, r, clock, gameDelta, realDelta).state.Some?
    ensures
      var n := TickActor(cast, actor, r, clock, gameDelta, realDelta, e);
      && n.variant.Some?
      && var scheduled := Scheduled(cast, actor, n.variant.value, n.delay, clock);
      scheduled.Some? && ShownAs(cast.root, r.shown, n, scheduled.value)
  {
    AdvancedAsScheduled(cast, actor, r, clock, gameDelta, realDelta);
    var a := Advance(cast, actor, r, clock, gameDelta, realDelta);
    SettlingKeepsTheSchedule(cast.root, a.runtime, e, clock.server);
    ShownAsItIs(cast.root, Settle(cast.root, a.runtime, e, clock.server), a.state.value);
  }

  /** The variant of the day stays; it is chosen anew on a new day, or where there was none. */
  lemma VariantsLastADay(cast: Cast, actor: Actor, r: Runtime, clock: Clock, gameDelta: real, realDelta: real)
    ensures
      var a := Advance(cast, actor, r, clock, gameDelta, realDelta);
      var variant := if r.day == clock.day && r.variant.Some? then r.variant else cast.select(actor.id, clock.game);
      if variant.None? then a == Advanced(r, None)
      else a.runtime.day == clock.day && a.runtime.variant == variant && (variant.value !in actor.variants ==> a.state == None)
  {
  }

  /** No time is counted at the first tick, across days, backwards, or over more than a day. */
  lemma TimeIsCountedWithinADay(e: Engine, clock: Clock)
    ensures
      var counted := e.last.Some? && e.last.value.day == clock.day;
      && GameDelta(e, clock)
         == (if counted && 0.0 <= clock.game - e.last.value.game <= 86400.0 then clock.game - e.last.value.game else 0.0)
      && RealDelta(e, clock)
         == (if counted && 0.0 <= clock.server - e.last.value.server <= 86400.0 then clock.server - e.last.value.server else 0.0)
  {
  }

  /** A jump is announced where an actor is seen further away in its world than the faster of two paces takes it in the time between, but at least in a second. */
  lemma JumpsAreAnnouncedIffTooFar(root: Root, before: State, after: State)
    requires IsRoot(root) && before.speed >= 0.0 && after.speed >= 0.0
    ensures
      var jump, seconds := ClassifyDiscontinuity(root, Some(before), after), after.effectiveSecond - before.effectiveSecond;
      var counted := if 1.0 <= seconds <= 86400.0 then seconds else 1.0;
      var distance := HorizontalDistance(root, before.position, after.position);
      && (jump.Some? <==>
            && before.Visible() && after.Visible() && before.world == after.world
            && distance - 0.05 > Times(before.speed, counted) && distance - 0.05 > Times(after.speed, counted))
      && (jump.Some? ==>
            (jump.value == ScheduleJump <==> before.operation != 0x1c || after.operation != 0x1c)
            && (jump.value == SecondarySnap ==> before.secondaryObject == after.secondaryObject)
            && (jump.value == SecondaryObjectSwitch ==> before.secondaryObject != after.secondaryObject))
  {
    var seconds := after.effectiveSecond - before.effectiveSecond;
    var counted := if 1.0 <= seconds <= 86400.0 then seconds else 1.0;
    FasterGoesFurther(before.speed, after.speed, counted);
    FasterGoesFurther(after.speed, before.speed, counted);
  }

  lemma FasterGoesFurther(slow: real, fast: real, seconds: real)
    requires seconds >= 0.0
    ensures slow <= fast ==> Times(slow, seconds) <= Times(fast, seconds)
  {
    if slow <= fast {
      ProductIsPositive(fast - slow, seconds);
      assert Times(fast - slow, seconds) == Times(fast, seconds) - Times(slow, seconds);
    }
  }

  // ---------- A new day, and a restart ----------

  /** A new day starts without delay or encounters; on the same day just blocked and sidestepping actors fall behind. */
  lemma DaysStartAfresh(r: Runtime, variant: nat, clock: Clock, gameDelta: real)
    ensures
      var n := Rolled(r, variant, clock, gameDelta);
      && n.day == clock.day && n.variant == Some(variant)
      && (r.day != clock.day ==>
            && n.delay == 0.0 && n.phase == NoPhase && n.offset == ORIGIN && n.blockedBy == None && n.blockedSince == None
            && n.clearSince == None)
      && (r.day == clock.day ==>
            && n.delay == r.delay + (if r.blockedBy.Some? || r.phase == Sidestep then gameDelta else 0.0)
            && n == r.(variant := Some(variant), delay := n.delay))
  {
  }

  /** A reset makes every actor new, but for what was shown of it last, and the clock. */
  lemma ResetsForget(e: Engine, id: int)
    requires id in e.runtimes
    ensures
      var n := ResetSchedule(e);
      && n.last == None && n.runtimes.Keys == e.runtimes.Keys
      && n.runtimes[id] == Runtime(-1, None, 0.0, None, None, None, NoPhase, ORIGIN, ORIGIN, 0.0, e.runtimes[id].shown)
  {
  }

  /** What is saved of all actors. */
  function Saved(cast: Cast, runtimes: map<int, Runtime>, n: nat): (saved: seq<Checkpoint>)
    requires Casts(cast, runtimes) && n <= |cast.actors|
    ensures |saved| == n
    ensures forall k :: 0 <= k < n ==>
      saved[k] == Checkpoint(cast.actors[k].id, runtimes[cast.actors[k].id].day, runtimes[cast.actors[k].id].delay)
  {
    if n == 0 then []
    else
      var id := cast.actors[n - 1].id;
      Saved(cast, runtimes, n - 1) + [Checkpoint(id, runtimes[id].day, runtimes[id].delay)]
  }

  /** What a restart keeps of a checkpoint. */
  predicate StartsFrom(r: Runtime, day: int, delay: real) {
    r.day == day && r.delay == delay && r.blockedBy == None && r.blockedSince == None && r.phase == NoPhase && r.offset == ORIGIN
  }

  lemma RestoringOne(runtimes: map<int, Runtime>, c: Checkpoint, id: int)
    requires id in runtimes && (c.id == id ==> c.delay >= 0.0)
    ensures id in RestoreOne(runtimes, c)
    ensures c.id == id ==> StartsFrom(RestoreOne(runtimes, c)[id], c.day, c.delay)
    ensures c.id != id ==> RestoreOne(runtimes, c)[id] == runtimes[id]
  {
  }

  /** The last checkpoint of an actor is the one it starts from. */
  lemma {:induction false} RestoringAll(runtimes: map<int, Runtime>, saved: seq<Checkpoint>, k: nat)
    requires k < |saved| && saved[k].id in runtimes && saved[k].delay >= 0.0
    requires forall j :: k < j < |saved| ==> saved[j].id != saved[k].id
    ensures StartsFrom(Restore(runtimes, saved)[saved[k].id], saved[k].day, saved[k].delay)
  {
    var init, last := saved[..|saved| - 1], saved[|saved| - 1];
    if k < |init| {
      assert init[k] == saved[k];
      RestoringAll(runtimes, init, k);
    }
    RestoringOne(Restore(runtimes, init), last, saved[k].id);
  }

  /** Restoring what was saved brings back every actor's day and delay, and no encounter. */
  lemma RestartKeepsDaysAndDelays(cast: Cast, runtimes: map<int, Runtime>, later: map<int, Runtime>, k: nat)
    requires Casts(cast, runtimes) && Casts(cast, later) && k < |cast.actors| && runtimes[cast.actors[k].id].delay >= 0.0
    ensures
      var id := cast.actors[k].id;
      StartsFrom(Restore(later, Saved(cast, runtimes, |cast.actors|))[id], runtimes[id].day, runtimes[id].delay)
  {
    RestoringAll(later, Saved(cast, runtimes, |cast.actors|), k);
  }
}
