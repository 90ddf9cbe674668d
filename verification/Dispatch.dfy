/**
 * Choosing the script that answers a trigger, and handing the trigger on when a script
 * passes it (internal/store/script_events.go, internal/scriptevent/engine.go).
 */
module Dispatch {
  import opened Common

  /** One published trigger row; the query returns rows by falling priority. */
  datatype Candidate = Candidate(version: int, priority: int)

  datatype TriggerError = TriggerNotFound | AmbiguousTrigger

  ghost predicate ByPriority(rows: seq<Candidate>) {
    forall i, j :: 0 <= i < j < |rows| ==> rows[i].priority >= rows[j].priority
  }

  /** The first row at or after `from` whose version is not excluded, or `|rows|`. */
  function NextIndex(rows: seq<Candidate>, excluded: set<int>, from: nat): (i: nat)
    requires from <= |rows|
    ensures from <= i <= |rows|
    ensures i < |rows| ==> rows[i].version !in excluded
    ensures forall k :: from <= k < i ==> rows[k].version in excluded
    decreases |rows| - from
  {
    if from == |rows| || rows[from].version !in excluded then from else NextIndex(rows, excluded, from + 1)
  }

  function Resolve(rows: seq<Candidate>, excluded: set<int>): (r: Result<Candidate, TriggerError>) {
    var first := NextIndex(rows, excluded, 0);
    if first == |rows| then Err(TriggerNotFound)
    else
      var second := NextIndex(rows, excluded, first + 1);
      if second < |rows| && rows[second].priority == rows[first].priority then Err(AmbiguousTrigger)
      else Ok(rows[first])
  }

  method ResolvePublishedTrigger(rows: seq<Candidate>, excluded: set<int>) returns (r: Result<Candidate, TriggerError>)
    ensures r == Resolve(rows, excluded)
  {
    var candidates: seq<Candidate> := [];
    var next := 0;
    ghost var first, second := NextIndex(rows, excluded, 0), 0;
    while next < |rows| && |candidates| < 2
      invariant next <= |rows| && |candidates| <= 2
      invariant candidates == [] ==> NextIndex(rows, excluded, next) == first
      invariant |candidates| == 1 ==>
        first < next && candidates[0] == rows[first]
        && NextIndex(rows, excluded, next) == NextIndex(rows, excluded, first + 1)
      invariant |candidates| == 2 ==>
        first < second < |rows| && second == NextIndex(rows, excluded, first + 1)
        && candidates == [rows[first], rows[second]]
      decreases |rows| - next
    {
      if rows[next].version !in excluded {
        candidates := candidates + [rows[next]];
        if |candidates| == 2 {
          second := next;
        }
      }
      next := next + 1;
    }
    if |candidates| == 0 {
      return Err(TriggerNotFound);
    }
    if |candidates| > 1 && candidates[0].priority == candidates[1].priority {
      return Err(AmbiguousTrigger);
    }
    return Ok(candidates[0]);
  }

  // ---------- Passing a trigger on ----------

  datatype Outcome =
    | Settled(version: int)
    | Declined(version: int)
    | Failed(error: TriggerError)

  function Remaining(rows: seq<Candidate>, excluded: set<int>): (versions: set<int>) {
    (set i | 0 <= i < |rows| :: rows[i].version) - excluded
  }

  /** Starts the best candidate; one that passes hands over to the rest. */
  function StartCandidate(rows: seq<Candidate>, excluded: set<int>, passes: int -> bool): (r: Outcome)
    decreases |Remaining(rows, excluded)|
  {
    match Resolve(rows, excluded)
    case Err(e) => Failed(e)
    case Ok(candidate) =>
      if !passes(candidate.version) then Settled(candidate.version)
      else
        ExclusionShrinksTheRest(rows, excluded, candidate);
        match StartCandidate(rows, excluded + {candidate.version}, passes)
        case Failed(TriggerNotFound) => Declined(candidate.version)
        case other => other
  }

  /** The versions started on the way, in order. */
  function Visits(rows: seq<Candidate>, excluded: set<int>, passes: int -> bool): (v: seq<Candidate>)
    decreases |Remaining(rows, excluded)|
  {
    match Resolve(rows, excluded)
    case Err(_) => []
    case Ok(candidate) =>
      if !passes(candidate.version) then [candidate]
      else
        ExclusionShrinksTheRest(rows, excluded, candidate);
        [candidate] + Visits(rows, excluded + {candidate.version}, passes)
  }

  lemma ExclusionShrinksTheRest(rows: seq<Candidate>, excluded: set<int>, candidate: Candidate)
    requires Resolve(rows, excluded) == Ok(candidate)
    ensures |Remaining(rows, excluded + {candidate.version})| < |Remaining(rows, excluded)|
  {
    var less, more := Remaining(rows, excluded + {candidate.version}), Remaining(rows, excluded);
    var i := NextIndex(rows, excluded, 0);
    assert rows[i] == candidate && candidate.version in more;
    assert less == more - {candidate.version};
  }

  method DispatchTrigger(rows: seq<Candidate>, excluded: set<int>, passes: int -> bool) returns (r: Outcome)
    ensures r == StartCandidate(rows, excluded, passes)
    decreases |Remaining(rows, excluded)|
  {
    var resolved := ResolvePublishedTrigger(rows, excluded);
    if resolved.Err? {
      return Failed(resolved.error);
    }
    var candidate := resolved.value;
    if !passes(candidate.version) {
      return Settled(candidate.version);
    }
    ExclusionShrinksTheRest(rows, excluded, candidate);
    var next := DispatchTrigger(rows, excluded + {candidate.version}, passes);
    if next == Failed(TriggerNotFound) {
      return Declined(candidate.version);
    }
    return next;
  }

  // ---------- The plain priority scan it refines ----------

  ghost function VersionsBefore(rows: seq<Candidate>, j: nat): (s: set<int>)
    requires j <= |rows|
  {
    set k | 0 <= k < j :: rows[k].version
  }

  /** Row `j` is the first of its version. */
  ghost predicate Leads(rows: seq<Candidate>, j: nat) {
    j < |rows| && rows[j].version !in VersionsBefore(rows, j)
  }

  /** A row behind `j` has the same priority and a version not seen before `j`. */
  ghost predicate Tied(rows: seq<Candidate>, j: nat)
    requires j < |rows|
  {
    exists k :: j < k < |rows| && rows[k].priority == rows[j].priority && rows[k].version !in VersionsBefore(rows, j)
  }

  ghost predicate AllPassBefore(rows: seq<Candidate>, passes: int -> bool, j: nat) {
    j <= |rows| && forall i :: 0 <= i < j ==> passes(rows[i].version)
  }

  ghost predicate NoTieBefore(rows: seq<Candidate>, j: nat) {
    j <= |rows| && forall i :: 0 <= i < j && Leads(rows, i) ==> !Tied(rows, i)
  }

  /** The scan arrives at row `j`: every row above it passes and none of them was tied. */
  ghost predicate Reached(rows: seq<Candidate>, passes: int -> bool, j: nat) {
    Leads(rows, j) && AllPassBefore(rows, passes, j) && NoTieBefore(rows, j)
  }

  ghost predicate ScanSettles(rows: seq<Candidate>, passes: int -> bool, version: int) {
    exists j: nat :: Reached(rows, passes, j) && !Tied(rows, j) && rows[j].version == version && !passes(version)
  }

  ghost predicate ScanTies(rows: seq<Candidate>, passes: int -> bool) {
    exists j: nat :: Reached(rows, passes, j) && Tied(rows, j)
  }

  lemma ResolveFromPosition(rows: seq<Candidate>, p: nat) returns (j: nat)
    requires ByPriority(rows) && p <= |rows|
    ensures p <= j <= |rows| && VersionsBefore(rows, j) == VersionsBefore(rows, p)
    ensures j == |rows| ==> Resolve(rows, VersionsBefore(rows, p)) == Err(TriggerNotFound)
    ensures j < |rows| ==>
      Leads(rows, j)
      && Resolve(rows, VersionsBefore(rows, p)) == if Tied(rows, j) then Err(AmbiguousTrigger) else Ok(rows[j])
    ensures forall i :: p <= i < j ==> !Leads(rows, i)
  {
    var seen := VersionsBefore(rows, p);
    j := NextIndex(rows, seen, 0);
    forall i | p <= i < j ensures rows[i].version in VersionsBefore(rows, i) {
      assert rows[i].version in seen;
    }
    if j < |rows| {
      var second := NextIndex(rows, seen, j + 1);
      if Tied(rows, j) {
        var k :| j < k < |rows| && rows[k].priority == rows[j].priority && rows[k].version !in VersionsBefore(rows, j);
        assert second <= k;
        assert rows[j].priority >= rows[second].priority >= rows[k].priority;
      }
    }
  }

  ghost predicate ScanClears(rows: seq<Candidate>, passes: int -> bool) {
    AllPassBefore(rows, passes, |rows|) && NoTieBefore(rows, |rows|)
  }

  /** What the scan says about an outcome reported from position `p`. */
  ghost predicate Verdict(rows: seq<Candidate>, passes: int -> bool, p: nat, r: Outcome) {
    match r
    case Settled(v) => ScanSettles(rows, passes, v)
    case Failed(AmbiguousTrigger) => ScanTies(rows, passes)
    case Declined(_) => ScanClears(rows, passes)
    case Failed(TriggerNotFound) => ScanClears(rows, passes) && forall i: nat :: p <= i < |rows| ==> !Leads(rows, i)
  }

  lemma SkippedRowsChangeNothing(rows: seq<Candidate>, passes: int -> bool, p: nat, j: nat)
    requires AllPassBefore(rows, passes, p) && NoTieBefore(rows, p) && p <= j <= |rows|
    requires VersionsBefore(rows, j) == VersionsBefore(rows, p)
    requires forall i :: p <= i < j ==> !Leads(rows, i)
    ensures AllPassBefore(rows, passes, j) && NoTieBefore(rows, j)
  {
    forall i | p <= i < j ensures passes(rows[i].version) {
      assert rows[i].version in VersionsBefore(rows, j);
      var k :| 0 <= k < p && rows[k].version == rows[i].version;
    }
  }

  /** From any position the scan has arrived at, dispatch ends as the scan says. */
  lemma {:induction false} DispatchFromPosition(rows: seq<Candidate>, passes: int -> bool, p: nat)
    requires ByPriority(rows) && AllPassBefore(rows, passes, p) && NoTieBefore(rows, p)
    ensures Verdict(rows, passes, p, StartCandidate(rows, VersionsBefore(rows, p), passes))
    decreases |rows| - p
  {
    var j := ResolveFromPosition(rows, p);
    SkippedRowsChangeNothing(rows, passes, p, j);
    if j < |rows| {
      assert Reached(rows, passes, j);
      if !Tied(rows, j) && passes(rows[j].version) {
        assert VersionsBefore(rows, j + 1) == VersionsBefore(rows, p) + {rows[j].version};
        DispatchFromPosition(rows, passes, j + 1);
      }
    }
  }

  lemma ReachedInOrder(rows: seq<Candidate>, passes: int -> bool, i: nat, j: nat)
    requires Reached(rows, passes, i) && j <= |rows| && i <= j
    ensures i < j && Tied(rows, i) ==> !NoTieBefore(rows, j)
    ensures i < j && !passes(rows[i].version) ==> !AllPassBefore(rows, passes, j)
  {
  }

  lemma ScanSettlesOnce(rows: seq<Candidate>, passes: int -> bool, v: int, w: int)
    requires ScanSettles(rows, passes, v) && ScanSettles(rows, passes, w)
    ensures v == w
  {
    var j: nat :| Reached(rows, passes, j) && !Tied(rows, j) && rows[j].version == v && !passes(v);
    var k: nat :| Reached(rows, passes, k) && !Tied(rows, k) && rows[k].version == w && !passes(w);
    if j < k { ReachedInOrder(rows, passes, j, k); }
    if k < j { ReachedInOrder(rows, passes, k, j); }
  }

  lemma SettlingExcludesTies(rows: seq<Candidate>, passes: int -> bool, v: int)
    requires ScanSettles(rows, passes, v)
    ensures !ScanTies(rows, passes)
  {
    var j: nat :| Reached(rows, passes, j) && !Tied(rows, j) && rows[j].version == v && !passes(v);
    forall k: nat | Reached(rows, passes, k) ensures !Tied(rows, k) {
      if j < k {
        ReachedInOrder(rows, passes, j, k);
      } else if k < j {
        ReachedInOrder(rows, passes, k, j);
      }
    }
  }

  lemma SettlingExcludesClearing(rows: seq<Candidate>, passes: int -> bool, v: int)
    requires ScanSettles(rows, passes, v)
    ensures !ScanClears(rows, passes)
  {
    var j: nat :| Reached(rows, passes, j) && !Tied(rows, j) && rows[j].version == v && !passes(v);
    ReachedInOrder(rows, passes, j, |rows|);
  }

  lemma TiesExcludeClearing(rows: seq<Candidate>, passes: int -> bool)
    requires ScanTies(rows, passes)
    ensures !ScanClears(rows, passes)
  {
    var k: nat :| Reached(rows, passes, k) && Tied(rows, k);
    ReachedInOrder(rows, passes, k, |rows|);
  }

  /** The scan has exactly one verdict. */
  lemma ScanVerdictsExclude(rows: seq<Candidate>, passes: int -> bool)
    ensures forall v, w :: ScanSettles(rows, passes, v) && ScanSettles(rows, passes, w) ==> v == w
    ensures forall v :: ScanSettles(rows, passes, v) ==> !ScanTies(rows, passes) && !ScanClears(rows, passes)
    ensures ScanTies(rows, passes) ==> !ScanClears(rows, passes)
  {
    forall v, w | ScanSettles(rows, passes, v) && ScanSettles(rows, passes, w) ensures v == w {
      ScanSettlesOnce(rows, passes, v, w);
    }
    forall v | ScanSettles(rows, passes, v) ensures !ScanTies(rows, passes) && !ScanClears(rows, passes) {
      SettlingExcludesTies(rows, passes, v);
      SettlingExcludesClearing(rows, passes, v);
    }
    if ScanTies(rows, passes) { TiesExcludeClearing(rows, passes); }
  }

  /** Dispatch is the priority scan, verdict by verdict. */
  lemma DispatchRefinesPriorityScan(rows: seq<Candidate>, passes: int -> bool)
    requires ByPriority(rows)
    ensures forall v :: StartCandidate(rows, {}, passes) == Settled(v) <==> ScanSettles(rows, passes, v)
    ensures StartCandidate(rows, {}, passes) == Failed(AmbiguousTrigger) <==> ScanTies(rows, passes)
    ensures StartCandidate(rows, {}, passes).Declined? <==> rows != [] && ScanClears(rows, passes)
    ensures StartCandidate(rows, {}, passes) == Failed(TriggerNotFound) <==> rows == []
  {
    assert VersionsBefore(rows, 0) == {};
    DispatchFromPosition(rows, passes, 0);
    assert rows != [] ==> Leads(rows, 0);
    ScanVerdictsExclude(rows, passes);
    assert rows == [] ==> Resolve(rows, {}) == Err(TriggerNotFound);
  }

  lemma NextIsLower(rows: seq<Candidate>, excluded: set<int>, candidate: Candidate, k: nat)
    requires ByPriority(rows) && Resolve(rows, excluded) == Ok(candidate)
    requires k < |rows| && rows[k].version !in excluded + {candidate.version}
    ensures candidate.priority > rows[k].priority
  {
    var first := NextIndex(rows, excluded, 0);
    var second := NextIndex(rows, excluded, first + 1);
    assert first < k && second <= k;
  }

  ghost predicate FallingVisits(rows: seq<Candidate>, excluded: set<int>, passes: int -> bool, v: seq<Candidate>) {
    && (forall i :: 0 <= i < |v| ==> v[i] in rows && v[i].version !in excluded)
    && (forall i, j :: 0 <= i < j < |v| ==> v[i].priority > v[j].priority && v[i].version != v[j].version)
    && (forall i :: 0 <= i < |v| - 1 ==> passes(v[i].version))
  }

  lemma FirstVisitIsHighest(rows: seq<Candidate>, excluded: set<int>, passes: int -> bool,
                            candidate: Candidate, rest: seq<Candidate>)
    requires ByPriority(rows) && Resolve(rows, excluded) == Ok(candidate) && passes(candidate.version)
    requires candidate in rows && candidate.version !in excluded
    requires FallingVisits(rows, excluded + {candidate.version}, passes, rest)
    ensures FallingVisits(rows, excluded, passes, [candidate] + rest)
  {
    forall j | 0 <= j < |rest| ensures candidate.priority > rest[j].priority && candidate.version != rest[j].version {
      var k :| 0 <= k < |rows| && rows[k] == rest[j];
      NextIsLower(rows, excluded, candidate, k);
    }
    var v := [candidate] + rest;
    forall i, j | 0 <= i < j < |v| ensures v[i].priority > v[j].priority && v[i].version != v[j].version {
      assert v[j] == rest[j - 1] && (i > 0 ==> v[i] == rest[i - 1]);
    }
  }

  /** Candidates are tried in strictly falling priority, never twice, and only passing ones are left behind. */
  lemma {:induction false} VisitsFallInPriority(rows: seq<Candidate>, excluded: set<int>, passes: int -> bool)
    requires ByPriority(rows)
    ensures FallingVisits(rows, excluded, passes, Visits(rows, excluded, passes))
    decreases |Remaining(rows, excluded)|
  {
    if Resolve(rows, excluded).Ok? {
      var candidate := Resolve(rows, excluded).value;
      assert candidate == rows[NextIndex(rows, excluded, 0)];
      if passes(candidate.version) {
        ExclusionShrinksTheRest(rows, excluded, candidate);
        VisitsFallInPriority(rows, excluded + {candidate.version}, passes);
        FirstVisitIsHighest(rows, excluded, passes, candidate, Visits(rows, excluded + {candidate.version}, passes));
      }
    }
  }

  /** The outcome is about the last version started. */
  lemma {:induction false} OutcomeNamesTheLastVisit(rows: seq<Candidate>, excluded: set<int>, passes: int -> bool)
    ensures var r, v := StartCandidate(rows, excluded, passes), Visits(rows, excluded, passes);
      && (r.Settled? ==> v != [] && r.version == v[|v| - 1].version && !passes(r.version))
      && (r.Declined? ==> v != [] && r.version == v[|v| - 1].version && passes(r.version))
      && (r == Failed(TriggerNotFound) <==> v == [] && Resolve(rows, excluded) == Err(TriggerNotFound))
    decreases |Remaining(rows, excluded)|
  {
    if Resolve(rows, excluded).Ok? {
      var candidate := Resolve(rows, excluded).value;
      if passes(candidate.version) {
        ExclusionShrinksTheRest(rows, excluded, candidate);
        OutcomeNamesTheLastVisit(rows, excluded + {candidate.version}, passes);
        var rest := Visits(rows, excluded + {candidate.version}, passes);
        assert Visits(rows, excluded, passes) == [candidate] + rest;
      } else {
        assert Visits(rows, excluded, passes) == [candidate];
      }
    }
  }
}
