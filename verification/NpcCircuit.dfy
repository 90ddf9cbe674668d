/**
 * The rounds that a secondary controller walks again and again: out along a track, a pause, and
 * perhaps a handoff to another track (internal/npc/secondary.go).
 */
module NpcCircuit {
  import opened Common
  import opened NpcRoute

  const UPDATES_PER_SECOND := 30.0

  /** A route, the step taken along it at every update, and the code of the object that walks it. */
  datatype Track = Track(points: seq<Vector3>, step: real, objectCode: string)

  datatype Round = Round(track: Track, handoff: Track)

  /** A phase walks its track, or pauses at the end of it. */
  datatype Phase = Phase(track: Track, pauses: bool, duration: real)

  function Speed(track: Track): (speed: real) {
    track.step * UPDATES_PER_SECOND
  }

  predicate Walkable(track: Track) {
    track.points != [] && track.step > 0.0
  }

  /** How long a track takes. */
  function WalkingTime(root: Root, track: Track): (t: real)
    requires track.step > 0.0
  {
    RouteLength(root, track.points) / Speed(track)
  }

  predicate HandsOff(root: Root, round: Round) {
    RouteLength(root, round.handoff.points) > 0.0 && round.handoff.step > 0.0
  }

  /** The last round pauses for one update more. */
  function PhasesOf(root: Root, round: Round, last: bool): (phases: seq<Phase>)
    requires Walkable(round.track)
    ensures phases != [] && (forall p :: p in phases ==> Walkable(p.track))
  {
    [Phase(round.track, false, WalkingTime(root, round.track)),
     Phase(round.track, true, (if last then 3.0 else 2.0) / UPDATES_PER_SECOND)]
    + if HandsOff(root, round) then [Phase(round.handoff, false, WalkingTime(root, round.handoff))] else []
  }

  /** The phases of the first `n` rounds. */
  function Phases(root: Root, rounds: seq<Round>, n: nat): (phases: seq<Phase>)
    requires n <= |rounds| && forall r :: r in rounds ==> Walkable(r.track)
    ensures n > 0 ==> phases != []
    ensures forall p :: p in phases ==> Walkable(p.track)
  {
    if n == 0 then [] else Phases(root, rounds, n - 1) + PhasesOf(root, rounds[n - 1], n == |rounds|)
  }

  function CycleTime(phases: seq<Phase>): (t: real) {
    if phases == [] then 0.0 else CycleTime(phases[..|phases| - 1]) + phases[|phases| - 1].duration
  }

  /** Which time round it is. */
  function LapOf(elapsed: real, cycle: real): (lap: int)
    requires cycle > 0.0
  {
    (elapsed / cycle).Floor
  }

  function SinceLap(elapsed: real, cycle: real): (t: real)
    requires cycle > 0.0
  {
    elapsed - Times(LapOf(elapsed, cycle) as real, cycle)
  }

  datatype Spot = Spot(phase: nat, within: real)

  /** The phase at `elapsed` from the start of phase `index`, and how far into it; past the end, the end of the last one. */
  function SpotFrom(phases: seq<Phase>, index: nat, elapsed: real): (spot: Spot)
    requires phases != [] && index <= |phases|
    ensures spot.phase < |phases|
    decreases |phases| - index
  {
    if index == |phases| then Spot(index - 1, phases[index - 1].duration)
    else if elapsed <= phases[index].duration then Spot(index, elapsed)
    else SpotFrom(phases, index + 1, elapsed - phases[index].duration)
  }

  /** How far along its track a phase has come. */
  function Covered(root: Root, phase: Phase, within: real): (d: real) {
    var length := RouteLength(root, phase.track.points);
    if phase.pauses then length else Min(length, Times(within, Speed(phase.track)))
  }

  // ---------- In place ----------

  lemma OnePhaseMore(phases: seq<Phase>, phase: Phase)
    ensures CycleTime(phases + [phase]) == CycleTime(phases) + phase.duration
  {
    assert (phases + [phase])[..|phases|] == phases;
  }

  method CollectPhases(root: Root, rounds: seq<Round>) returns (phases: seq<Phase>, cycle: real)
    requires forall r :: r in rounds ==> Walkable(r.track)
    ensures phases == Phases(root, rounds, |rounds|) && cycle == CycleTime(phases)
  {
    phases, cycle := [], 0.0;
    for n := 0 to |rounds|
      invariant phases == Phases(root, rounds, n) && cycle == CycleTime(phases)
    {
      phases, cycle := AddRound(root, phases, cycle, rounds[n], n + 1 == |rounds|);
    }
  }

  method AddRound(root: Root, phases: seq<Phase>, cycle: real, round: Round, last: bool) returns (more: seq<Phase>, longer: real)
    requires Walkable(round.track) && cycle == CycleTime(phases)
    ensures more == phases + PhasesOf(root, round, last) && longer == CycleTime(more)
  {
    var length := MeasureRoute(root, round.track.points);
    var out := Phase(round.track, false, length / Speed(round.track));
    var pause := Phase(round.track, true, (if last then 3.0 else 2.0) / UPDATES_PER_SECOND);
    assert out.duration == WalkingTime(root, round.track);
    more, longer := AddPhase(phases, cycle, out);
    more, longer := AddPhase(more, longer, pause);
    assert more == phases + [out, pause];
    var handoffLength := MeasureRoute(root, round.handoff.points);
    if handoffLength > 0.0 && round.handoff.step > 0.0 {
      var on := Phase(round.handoff, false, handoffLength / Speed(round.handoff));
      assert HandsOff(root, round) && on.duration == WalkingTime(root, round.handoff);
      more, longer := AddPhase(more, longer, on);
      assert more == phases + ([out, pause] + [on]);
    }
  }

  method AddPhase(phases: seq<Phase>, cycle: real, phase: Phase) returns (more: seq<Phase>, longer: real)
    requires cycle == CycleTime(phases)
    ensures more == phases + [phase] && longer == CycleTime(more)
  {
    OnePhaseMore(phases, phase);
    return phases + [phase], cycle + phase.duration;
  }

  method FindSpot(phases: seq<Phase>, elapsed: real) returns (spot: Spot)
    requires phases != []
    ensures spot == SpotFrom(phases, 0, elapsed)
  {
    var left := elapsed;
    for index := 0 to |phases|
      invariant SpotFrom(phases, index, left) == SpotFrom(phases, 0, elapsed)
    {
      if left <= phases[index].duration { return Spot(index, left); }
      left := left - phases[index].duration;
    }
    return Spot(|phases| - 1, phases[|phases| - 1].duration);
  }

  // ---------- One phase at two times ----------

  /** In one phase, no more time passes than passes altogether. */
  lemma {:induction false} SpotTwice(phases: seq<Phase>, index: nat, near: real, far: real)
    requires phases != [] && index <= |phases| && near <= far
    ensures
      var s, t := SpotFrom(phases, index, near), SpotFrom(phases, index, far);
      s.phase <= t.phase && (s.phase == t.phase ==> 0.0 <= t.within - s.within <= far - near)
    decreases |phases| - index
  {
    if index < |phases| && near > phases[index].duration {
      SpotTwice(phases, index + 1, near - phases[index].duration, far - phases[index].duration);
    } else if index < |phases| && far > phases[index].duration {
      SpotIsLater(phases, index + 1, far - phases[index].duration);
    }
  }

  lemma {:induction false} SpotIsLater(phases: seq<Phase>, index: nat, elapsed: real)
    requires phases != [] && index <= |phases|
    ensures
      var spot := SpotFrom(phases, index, elapsed);
      spot.phase >= index || (index == |phases| && spot == Spot(|phases| - 1, phases[|phases| - 1].duration))
    decreases |phases| - index
  {
    if index < |phases| && elapsed > phases[index].duration {
      SpotIsLater(phases, index + 1, elapsed - phases[index].duration);
    }
  }

  lemma SpeedIsPositive(track: Track, span: real)
    requires track.step > 0.0 && span >= 0.0
    ensures Speed(track) > 0.0 && Times(span, Speed(track)) >= 0.0
  {
    ProductIsPositive(span, Speed(track));
  }

  lemma TimesLess(near: real, far: real, span: real, speed: real)
    requires 0.0 <= far - near <= span && speed >= 0.0
    ensures 0.0 <= Times(far, speed) - Times(near, speed) <= Times(span, speed)
  {
    ProductIsPositive(far - near, speed);
    ProductIsPositive(span - (far - near), speed);
    assert Times(far - near, speed) == Times(far, speed) - Times(near, speed);
    assert Times(span - (far - near), speed) == Times(span, speed) - Times(far - near, speed);
  }

  /** The ground covered in one phase between two times. */
  lemma CoveredTwice(root: Root, phase: Phase, near: real, far: real, span: real)
    requires phase.track.step > 0.0 && 0.0 <= far - near <= span
    ensures 0.0 <= Covered(root, phase, far) - Covered(root, phase, near) <= Times(span, Speed(phase.track))
  {
    SpeedIsPositive(phase.track, span);
    TimesLess(near, far, span, Speed(phase.track));
  }

  /** Two times of one lap are as far apart as since its start. */
  lemma OneLap(near: real, far: real, cycle: real)
    requires cycle > 0.0 && LapOf(near, cycle) == LapOf(far, cycle)
    ensures SinceLap(far, cycle) - SinceLap(near, cycle) == far - near
  {
  }
}
