/** The doors that lead into controlled interiors, and their opening hours (internal/travelaccess/access.go). */
module TravelAccess {
  import opened Common

  datatype Position = Position(x: real, y: real, z: real)

  function DistanceSquared(a: Position, b: Position): (d: real) {
    (a.x - b.x) * (a.x - b.x) + (a.y - b.y) * (a.y - b.y) + (a.z - b.z) * (a.z - b.z)
  }

  const MILLISECOND := 1_000_000
  const SECOND := 1000 * MILLISECOND
  const MINUTE := 60 * SECOND
  const HOUR := 60 * MINUTE

  /** An instant in nanoseconds as whole milliseconds. */
  function Millis(instant: int): (ms: int) {
    instant / MILLISECOND
  }

  /** Opening hours, in minutes since the rule's day boundary. */
  datatype OpenWindow = OpenWindow(startMinute: int, endMinute: int, dayBoundaryHour: int)

  datatype Rule = Rule(
    transition: string, source: string, door: int, x: real, z: real, reach: real,
    destination: string, window: OpenWindow, lifetime: int)
  {
    predicate WithinRange(at: Position) {
      (at.x - x) * (at.x - x) + (at.z - z) * (at.z - z) <= reach * reach
    }

    /** `instant` is in nanoseconds of the game day. */
    predicate IsOpen(instant: int) {
      var since := if instant / HOUR < window.dayBoundaryHour then instant + 24 * HOUR else instant;
      window.startMinute * MINUTE <= since < window.endMinute * MINUTE
    }
  }

  datatype AccessManifest = AccessManifest(always: seq<string>, rules: seq<Rule>)

  datatype Access = Access(rules: map<string, Rule>, controlled: set<string>, always: set<string>) {
    predicate IsRuleOpen(rule: Rule, instant: int) {
      rule.destination in always || rule.IsOpen(instant)
    }
  }

  datatype AccessError = BadWorld | DuplicateWorld | NoInteriors | NoRules | BadRule | DuplicateTransition

  predicate ValidRule(rule: Rule) {
    && !Blank(rule.transition) && rule.source != "" && rule.destination != "" && rule.reach > 0.0
    && 0 <= rule.window.dayBoundaryHour <= 23
    && 0 <= rule.window.startMinute < rule.window.endMinute <= 2 * 24 * 60
    && rule.lifetime > 0
  }

  predicate ValidWorldName(world: string) {
    !Blank(world) && world[0] !in WHITE_SPACE && world[|world| - 1] !in WHITE_SPACE
  }

  /** What a rule may lack: names, reach, a boundary of the day, hours within two days of it, or a lifetime. */
  lemma RulesAreRefusedForWhatTheyLack(rule: Rule)
    ensures !ValidRule(rule)
      <==>
        || (forall i :: 0 <= i < |rule.transition| ==> rule.transition[i] in WHITE_SPACE) || |rule.source| == 0 || |rule.destination| == 0
        || rule.reach <= 0.0 || rule.window.dayBoundaryHour < 0 || rule.window.dayBoundaryHour >= 24
        || rule.window.startMinute < 0 || rule.window.startMinute >= rule.window.endMinute || rule.window.endMinute > 2880
        || rule.lifetime <= 0
  {
  }

  ghost predicate DistinctWorlds(worlds: seq<string>) {
    && (forall i :: 0 <= i < |worlds| ==> ValidWorldName(worlds[i]))
    && (forall i, j :: 0 <= i < j < |worlds| ==> worlds[i] != worlds[j])
  }

  ghost predicate DistinctRules(rules: seq<Rule>) {
    && (forall i :: 0 <= i < |rules| ==> ValidRule(rules[i]))
    && (forall i, j :: 0 <= i < j < |rules| ==> rules[i].transition != rules[j].transition)
  }

  ghost predicate ValidManifest(m: AccessManifest) {
    m.always != [] && m.rules != [] && DistinctWorlds(m.always) && DistinctRules(m.rules)
  }

  ghost predicate Indexes(index: map<string, Rule>, rules: seq<Rule>) {
    && (forall t :: t in index ==> index[t] in rules && index[t].transition == t)
    && (forall i :: 0 <= i < |rules| ==> rules[i].transition in index && index[rules[i].transition] == rules[i])
  }

  ghost predicate LeadsTo(rules: seq<Rule>, w: string) {
    exists i :: 0 <= i < |rules| && rules[i].destination == w
  }

  ghost predicate Controls(controlled: set<string>, rules: seq<Rule>, always: set<string>) {
    forall w :: w in controlled <==> w !in always && LeadsTo(rules, w)
  }

  /** The catalogue finds precisely the manifest's rules, and controls where they lead but not the open interiors. */
  ghost predicate Catalogues(access: Access, m: AccessManifest) {
    && (forall w :: w in access.always <==> w in m.always)
    && Indexes(access.rules, m.rules)
    && Controls(access.controlled, m.rules, access.always)
  }

  method LoadInteriors(worlds: seq<string>) returns (r: Result<set<string>, AccessError>)
    ensures r.Ok? <==> DistinctWorlds(worlds)
    ensures r.Ok? ==> forall w :: w in r.value <==> w in worlds
  {
    var always: set<string> := {};
    for n := 0 to |worlds|
      invariant DistinctWorlds(worlds[..n])
      invariant forall w :: w in always <==> w in worlds[..n]
    {
      assert worlds[..n + 1] == worlds[..n] + [worlds[n]];
      if !ValidWorldName(worlds[n]) { return Err(BadWorld); }
      if worlds[n] in always {
        assert exists i :: 0 <= i < n && worlds[i] == worlds[n];
        return Err(DuplicateWorld);
      }
      always := always + {worlds[n]};
    }
    assert worlds[..|worlds|] == worlds;
    return Ok(always);
  }

  lemma ControlsOneMore(controlled: set<string>, rules: seq<Rule>, rule: Rule, always: set<string>)
    requires Controls(controlled, rules, always)
    ensures Controls(if rule.destination in always then controlled else controlled + {rule.destination}, rules + [rule], always)
  {
    var more := rules + [rule];
    forall w ensures LeadsTo(more, w) <==> LeadsTo(rules, w) || rule.destination == w {
      if LeadsTo(rules, w) {
        var i :| 0 <= i < |rules| && rules[i].destination == w;
        assert more[i].destination == w;
      }
      assert more[|rules|] == rule;
    }
  }

  lemma IndexesOneMore(index: map<string, Rule>, rules: seq<Rule>, rule: Rule)
    requires Indexes(index, rules) && DistinctRules(rules) && ValidRule(rule) && rule.transition !in index
    ensures Indexes(index[rule.transition := rule], rules + [rule]) && DistinctRules(rules + [rule])
  {
  }

  method LoadRules(rules: seq<Rule>, always: set<string>)
    returns (r: Result<(map<string, Rule>, set<string>), AccessError>)
    ensures r.Ok? <==> DistinctRules(rules)
    ensures r.Ok? ==> Indexes(r.value.0, rules) && Controls(r.value.1, rules, always)
  {
    var index: map<string, Rule>, controlled: set<string> := map[], {};
    for n := 0 to |rules|
      invariant DistinctRules(rules[..n])
      invariant Indexes(index, rules[..n])
      invariant Controls(controlled, rules[..n], always)
    {
      var rule := rules[n];
      assert rules[..n + 1] == rules[..n] + [rule];
      if !ValidRule(rule) { return Err(BadRule); }
      if rule.transition in index {
        var i :| 0 <= i < n && rules[i] == index[rule.transition];
        return Err(DuplicateTransition);
      }
      IndexesOneMore(index, rules[..n], rule);
      ControlsOneMore(controlled, rules[..n], rule, always);
      index := index[rule.transition := rule];
      if rule.destination !in always {
        controlled := controlled + {rule.destination};
      }
    }
    assert rules[..|rules|] == rules;
    return Ok((index, controlled));
  }

  /** A manifest loads if and only if it is valid, and then into its catalogue. */
  method LoadAccess(m: AccessManifest) returns (r: Result<Access, AccessError>)
    ensures r.Ok? <==> ValidManifest(m)
    ensures r.Ok? ==> Catalogues(r.value, m)
  {
    if m.rules == [] { return Err(NoRules); }
    var always := LoadInteriors(m.always);
    if always.Err? { return Err(always.error); }
    if m.always == [] { return Err(NoInteriors); }
    assert m.always[0] in always.value;
    var rules := LoadRules(m.rules, always.value);
    if rules.Err? { return Err(rules.error); }
    return Ok(Access(rules.value.0, rules.value.1, always.value));
  }

  // ---------- What opening hours mean ----------

  /** A door is open in today's window, or in yesterday's where it goes on past midnight. */
  predicate MeansItsHours(rule: Rule, instant: int) {
    var start, end := rule.window.startMinute * MINUTE, rule.window.endMinute * MINUTE;
    rule.IsOpen(instant) <==> start <= instant < end || start <= instant + 24 * HOUR < end
  }

  predicate Instant(t: int) {
    0 <= t < 24 * HOUR
  }

  /** A window that lies in the day that begins at the boundary, or covers it. */
  predicate FitsItsDay(window: OpenWindow) {
    var boundary := window.dayBoundaryHour * 60;
    || (boundary <= window.startMinute && window.endMinute <= boundary + 24 * 60)
    || (window.startMinute <= boundary && boundary + 24 * 60 <= window.endMinute)
  }

  lemma BeforeTheBoundary(window: OpenWindow, instant: int)
    requires Instant(instant)
    ensures instant / HOUR < window.dayBoundaryHour <==> instant < window.dayBoundaryHour * HOUR
  {
  }

  lemma FittingHoursMeanIt(rule: Rule, instant: int)
    requires ValidRule(rule) && FitsItsDay(rule.window) && Instant(instant)
    ensures MeansItsHours(rule, instant)
  {
    BeforeTheBoundary(rule.window, instant);
  }

  /** The first instant at which other hours mislead. */
  function Misleading(window: OpenWindow): (t: int) {
    var boundary := window.dayBoundaryHour * 60;
    var earliest := if boundary < window.startMinute then boundary else window.startMinute;
    var yesterday := if boundary < window.startMinute then window.startMinute - 24 * 60 else window.endMinute - 24 * 60;
    (if earliest < yesterday then yesterday else earliest) * MINUTE
  }

  lemma OtherHoursMislead(rule: Rule)
    requires ValidRule(rule) && !FitsItsDay(rule.window)
    ensures Instant(Misleading(rule.window)) && !MeansItsHours(rule, Misleading(rule.window))
  {
    assert Instant(Misleading(rule.window));
    BeforeTheBoundary(rule.window, Misleading(rule.window));
  }

  /** A valid rule's door is open just in its hours, at every instant, if and only if they fit the day of the boundary. */
  lemma OpenInItsHoursIffTheyFit(rule: Rule)
    requires ValidRule(rule)
    ensures (forall t | Instant(t) :: MeansItsHours(rule, t)) <==> FitsItsDay(rule.window)
  {
    if FitsItsDay(rule.window) {
      forall t | Instant(t) ensures MeansItsHours(rule, t) {
        FittingHoursMeanIt(rule, t);
      }
    } else {
      OtherHoursMislead(rule);
    }
  }

  /** From one to two at night with a day that begins at five: at half past one the door is closed. */
  lemma EarlyHoursAreClosed(rule: Rule)
    requires ValidRule(rule) && rule.window == OpenWindow(60, 120, 5)
    ensures 60 * MINUTE <= 90 * MINUTE < 120 * MINUTE && !rule.IsOpen(90 * MINUTE)
  {
  }
}
