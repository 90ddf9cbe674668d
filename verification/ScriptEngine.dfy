/** Driving one script run from exchange to exchange (internal/scriptevent/engine.go). */
module ScriptEngine {
  import opened Common
  import opened ScriptMessages
  import opened EventState
  import opened Ledger
  import opened LedgerTheorems
  import opened StagingTheorems
  import ScriptRuns
  import ScriptRunTheorems
  import RuntimeProtocol

  const MAX_YIELD_EVENTS := RuntimeProtocol.MAX_YIELD_EVENTS

  /** The event an exchange returns after the inputs sent so far, the newest last; None if it fails. */
  type Script = seq<Option<Input>> -> Option<Event>

  /** Events are numbered by exchange, up to the host's limit (RuntimeProtocol.EventsAreNumberedAndBounded). */
  ghost predicate Paced(script: Script) {
    forall history :: script(history).Some? ==> script(history).value.sequence == |history| <= MAX_YIELD_EVENTS
  }

  /** `recorded` and `renewed` say whether the store accepts a trace step or a lease renewal. */
  datatype Env = Env(
    script: Script, lines: map<string, Option<string>>, facts: WorldFacts, random: nat -> Option<int>,
    recorded: nat -> bool, renewed: nat -> bool)

  datatype Active = Active(
    history: seq<Option<Input>>, state: ScriptState, effects: seq<Effect>,
    completionRequested: bool, visibleYielded: bool, draws: nat, ordinal: nat)

  function Begin(start: ScriptState): (a: Active) {
    Active([], start, [], false, false, 0, 0)
  }

  datatype FailureCode =
    | Trace | Runtime | Query | StagedEffect | LateTriggerPass | UnknownDisposition
    | MissingLine | BadOptions | CompletionRequired | Protocol

  datatype PumpResult =
    | Yielded(active: Active, event: Event)
    | ReadyToCommit(active: Active, passed: bool)
    | EndedByScript(active: Active)
    | Failed(active: Active, code: FailureCode)

  datatype Reaction = Proceed(active: Active, input: Option<Input>) | Stop(result: PumpResult)

  // ---------- Options ----------

  ghost predicate DistinctIds(offers: seq<Offer>) {
    forall i, j :: 0 <= i < j < |offers| ==> offers[i].id != offers[j].id
  }

  /** The options can be shown: ids are distinct, every line has text, and one can be chosen. */
  predicate Presentable(lines: map<string, Option<string>>, offers: seq<Offer>) {
    && (forall i, j :: 0 <= i < j < |offers| ==> offers[i].id != offers[j].id)
    && (forall i :: 0 <= i < |offers| ==> offers[i].lineId in lines && lines[offers[i].lineId].Some?)
    && (exists i :: 0 <= i < |offers| && offers[i].isAvailable)
  }

  method PresentOptions(lines: map<string, Option<string>>, offers: seq<Offer>) returns (ok: bool)
    ensures ok == Presentable(lines, offers)
  {
    var seen, available := {}, false;
    for n := 0 to |offers|
      invariant seen == set i | 0 <= i < n :: offers[i].id
      invariant DistinctIds(offers[..n])
      invariant forall i :: 0 <= i < n ==> offers[i].lineId in lines && lines[offers[i].lineId].Some?
      invariant available <==> exists i :: 0 <= i < n && offers[i].isAvailable
    {
      if offers[n].id in seen {
        var i :| 0 <= i < n && offers[i].id == offers[n].id;
        return false;
      }
      seen := seen + {offers[n].id};
      if offers[n].lineId !in lines || lines[offers[n].lineId].None? {
        return false;
      }
      available := available || offers[n].isAvailable;
    }
    assert offers[..|offers|] == offers;
    return available;
  }

  // ---------- One exchange ----------

  function React(env: Env, a: Active, event: Event): (r: Reaction) {
    match event
    case NodeStart(_, _) => Proceed(a, None)
    case NodeComplete(_, _) => Proceed(a, None)
    case Asked(_, queryId, query, arguments) =>
      var after := if Draws(query, arguments) then a.(draws := a.draws + 1) else a;
      (match ResolveQuery(a.state, env.facts, query, arguments, env.random(a.draws))
       case None => Stop(Failed(after, Query))
       case Some(value) => Proceed(after, Some(QueryResult(queryId, value))))
    case Issued(sequence, command, arguments) =>
      if Durable(command) then
        match Stage(a.state, command, arguments)
        case Err(_) => Stop(Failed(a, StagedEffect))
        case Ok(state) =>
          Proceed(a.(state := state, effects := a.effects + [Effect(sequence, command, arguments)]), Some(Continue))
      else if command == CompleteCommand then Proceed(a.(completionRequested := true), Some(Continue))
      else if command == PassTrigger then
        Stop(if a.visibleYielded then Failed(a, LateTriggerPass) else ReadyToCommit(a, true))
      else if command.Presentation? then Stop(Yielded(a.(visibleYielded := true), event))
      else Stop(Failed(a, UnknownDisposition))
    case Line(_, lineId) =>
      Stop(if lineId in env.lines then Yielded(a.(visibleYielded := true), event) else Failed(a, MissingLine))
    case Options(_, offers) =>
      Stop(if Presentable(env.lines, offers) then Yielded(a.(visibleYielded := true), event) else Failed(a, BadOptions))
    case Cancelled(_) => Stop(EndedByScript(a))
    case Completed(_) => Stop(if a.completionRequested then ReadyToCommit(a, false) else Failed(a, CompletionRequired))
    case _ => Stop(Failed(a, Protocol))
  }

  /** The run once `input` is sent and traced, and the event that answers it is traced too. */
  function Sent(a: Active, input: Option<Input>): (sent: Active) {
    a.(history := a.history + [input], ordinal := if input.Some? then a.ordinal + 2 else a.ordinal + 1)
  }

  function Exchange(env: Env, a: Active, input: Option<Input>): (r: Reaction) {
    var sent := Sent(a, input);
    if input.Some? && !env.recorded(a.ordinal + 1) then Stop(Failed(a, Trace))
    else
      match env.script(sent.history)
      case None => Stop(Failed(sent.(ordinal := sent.ordinal - 1), Runtime))
      case Some(event) =>
        if !env.recorded(sent.ordinal) then Stop(Failed(sent.(ordinal := sent.ordinal - 1), Trace))
        else React(env, sent, event)
  }

  lemma ExchangeReacts(env: Env, a: Active, input: Option<Input>)
    requires env.script(Sent(a, input).history).Some?
    ensures
      var r := Exchange(env, a, input);
      || r == React(env, Sent(a, input), env.script(Sent(a, input).history).value)
      || r == Stop(Failed(a, Trace))
      || r == Stop(Failed(Sent(a, input).(ordinal := Sent(a, input).ordinal - 1), Trace))
  {
  }

  /** What one exchange makes of a run, in some environment. */
  type Exchanger = (Active, Option<Input>) -> Reaction

  function Exchanging(env: Env): (exchange: Exchanger) {
    (a, input) => Exchange(env, a, input)
  }

  predicate Further(a: Active, next: Active) {
    |a.history| < |next.history| <= MAX_YIELD_EVENTS
  }

  /** Every exchange that goes on, or yields, uses up one of the events that the host's limit allows. */
  ghost predicate Advances(exchange: Exchanger) {
    forall a, input :: AdvancesTo(a, exchange(a, input))
  }

  predicate AdvancesTo(a: Active, reaction: Reaction) {
    match reaction
    case Proceed(next, _) => Further(a, next)
    case Stop(Yielded(next, _)) => Further(a, next)
    case Stop(_) => true
  }

  lemma ExchangeAdvances(env: Env, a: Active, input: Option<Input>)
    requires Paced(env.script)
    ensures AdvancesTo(a, Exchange(env, a, input))
  {
    var sent := Sent(a, input);
    if env.script(sent.history).Some? {
      ExchangeReacts(env, a, input);
    }
  }

  lemma ExchangingAdvances(env: Env)
    requires Paced(env.script)
    ensures Advances(Exchanging(env))
  {
    forall a, input ensures AdvancesTo(a, Exchanging(env)(a, input)) {
      ExchangeAdvances(env, a, input);
    }
  }

  /** Exchanges until the script yields to the player or ends; the host's limit makes it end. */
  function Pump(exchange: Exchanger, a: Active, input: Option<Input>): (r: PumpResult)
    requires Advances(exchange)
    ensures r.Yielded? ==> Further(a, r.active)
    decreases MAX_YIELD_EVENTS + 1 - |a.history|
  {
    assert AdvancesTo(a, exchange(a, input));
    match exchange(a, input)
    case Stop(result) => result
    case Proceed(next, reply) => Pump(exchange, next, reply)
  }

  class ActiveEvent {
    const env: Env
    const staging: Staging
    var history: seq<Option<Input>>
    var completionRequested: bool
    var visibleYielded: bool
    var draws: nat
    var ordinal: nat

    ghost function Value(): (a: Active)
      reads this, staging
    {
      Active(history, staging.state, staging.effects, completionRequested, visibleYielded, draws, ordinal)
    }

    constructor (env: Env, start: ScriptState)
      ensures this.env == env && fresh(staging) && Value() == Begin(start)
    {
      this.env := env;
      staging := new Staging(start);
      history, completionRequested, visibleYielded, draws, ordinal := [], false, false, 0, 0;
    }

    method RecordTrace() returns (ok: bool)
      modifies this`ordinal
      ensures ok == env.recorded(old(ordinal) + 1)
      ensures ordinal == if ok then old(ordinal) + 1 else old(ordinal)
    {
      ok := env.recorded(ordinal + 1);
      if ok { ordinal := ordinal + 1; }
    }

    /** What one event of the runtime does; a reply means that the loop goes on. */
    method Handle(event: Event) returns (stop: Option<PumpResult>, reply: Option<Input>)
      modifies this, staging
      ensures history == old(history)
      ensures match React(env, old(Value()), event)
        case Proceed(next, input) => stop == None && reply == input && Value() == next
        case Stop(result) => stop == Some(result) && Value() == result.active
    {
      stop, reply := None, None;
      match event {
        case NodeStart(_, _) =>
        case NodeComplete(_, _) =>
        case Asked(_, queryId, query, arguments) =>
          var value := ResolveQuery(staging.state, env.facts, query, arguments, env.random(draws));
          if Draws(query, arguments) { draws := draws + 1; }
          if value.None? { stop := Some(Failed(Snapshot(), Query)); }
          else { reply := Some(QueryResult(queryId, value.value)); }
        case Issued(sequence, command, arguments) =>
          stop, reply := HandleCommand(event, sequence, command, arguments);
        case Line(_, lineId) =>
          if lineId !in env.lines { return Some(Failed(Snapshot(), MissingLine)), None; }
          visibleYielded := true;
          stop := Some(Yielded(Snapshot(), event));
        case Options(_, offers) =>
          var ok := PresentOptions(env.lines, offers);
          if !ok { return Some(Failed(Snapshot(), BadOptions)), None; }
          visibleYielded := true;
          stop := Some(Yielded(Snapshot(), event));
        case Cancelled(_) => stop := Some(EndedByScript(Snapshot()));
        case Completed(_) =>
          stop := Some(if completionRequested then ReadyToCommit(Snapshot(), false) else Failed(Snapshot(), CompletionRequired));
        case Unrecognised(_) => stop := Some(Failed(Snapshot(), Protocol));
        case Crashed(_) => stop := Some(Failed(Snapshot(), Protocol));
      }
    }

    method HandleCommand(event: Event, sequence: int, command: Command, arguments: seq<Argument>)
      returns (stop: Option<PumpResult>, reply: Option<Input>)
      requires event == Issued(sequence, command, arguments)
      modifies this, staging
      ensures history == old(history)
      ensures match React(env, old(Value()), event)
        case Proceed(next, input) => stop == None && reply == input && Value() == next
        case Stop(result) => stop == Some(result) && Value() == result.active
    {
      stop, reply := None, Some(Continue);
      if Durable(command) {
        var error := staging.StageEffect(Effect(sequence, command, arguments));
        if error.Some? { stop, reply := Some(Failed(Snapshot(), StagedEffect)), None; }
      } else if command == CompleteCommand {
        completionRequested := true;
      } else if command == PassTrigger {
        stop, reply := Some(if visibleYielded then Failed(Snapshot(), LateTriggerPass) else ReadyToCommit(Snapshot(), true)), None;
      } else if command.Presentation? {
        visibleYielded := true;
        stop, reply := Some(Yielded(Snapshot(), event)), None;
      } else {
        stop, reply := Some(Failed(Snapshot(), UnknownDisposition)), None;
      }
    }

    function Snapshot(): (a: Active)
      reads this, staging
      ensures a == Value()
    {
      Active(history, staging.state, staging.effects, completionRequested, visibleYielded, draws, ordinal)
    }

    /** One turn of the pump loop. */
    method ExchangeOnce(input: Option<Input>) returns (stop: Option<PumpResult>, reply: Option<Input>)
      modifies this, staging
      ensures match Exchange(env, old(Value()), input)
        case Proceed(next, again) => stop == None && reply == again && Value() == next
        case Stop(result) => stop == Some(result) && Value() == result.active
    {
      stop, reply := None, None;
      if input.Some? {
        var told := RecordTrace();
        if !told { return Some(Failed(Snapshot(), Trace)), None; }
      }
      history := history + [input];
      var event := env.script(history);
      if event.None? { return Some(Failed(Snapshot(), Runtime)), None; }
      var ok := RecordTrace();
      if !ok { return Some(Failed(Snapshot(), Trace)), None; }
      stop, reply := Handle(event.value);
    }

    /** The pump loop; it ends because the runtime does (ExchangingAdvances). */
    method RunPump(first: Option<Input>) returns (result: PumpResult)
      requires Advances(Exchanging(env))
      modifies this, staging
      ensures result == Pump(Exchanging(env), old(Value()), first)
      ensures Value() == result.active
    {
      var input := first;
      while true
        invariant Pump(Exchanging(env), Value(), input) == Pump(Exchanging(env), old(Value()), first)
        decreases MAX_YIELD_EVENTS + 1 - |history|
      {
        assert AdvancesTo(Value(), Exchanging(env)(Value(), input));
        var stop, reply := ExchangeOnce(input);
        if stop.Some? { return stop.value; }
        input := reply;
      }
    }
  }

  // ---------- A whole run ----------

  datatype Played = Settled(result: PumpResult) | AwaitsPlayer(active: Active) | LeaseLost(active: Active) {
    function Last(): Active {
      match this
      case Settled(result) => result.active
      case AwaitsPlayer(active) => active
      case LeaseLost(active) => active
    }
  }

  /**
   * What the player sends after an event, given how many choices came before it: any input, also one to
   * cancel or one that the session refuses, or nothing so far.
   */
  type Player = (nat, Event) -> Option<Input>

  /** Continues after every line and presentation, and takes `choices` in turn. */
  function Taking(choices: seq<int>): (player: Player) {
    (chosen: nat, event: Event) =>
      if !event.Options? then Some(Continue) else if chosen < |choices| then Some(Select(choices[chosen])) else None
  }

  function ChosenAfter(chosen: nat, event: Event): (n: nat) {
    if event.Options? then chosen + 1 else chosen
  }

  function Play(exchange: Exchanger, renewed: nat -> bool, player: Player, a: Active, input: Option<Input>, chosen: nat): (r: Played)
    requires Advances(exchange)
    decreases MAX_YIELD_EVENTS + 1 - |a.history|
  {
    match Pump(exchange, a, input)
    case Yielded(next, event) =>
      if player(chosen, event).None? then AwaitsPlayer(next)
      else if !renewed(|next.history|) then LeaseLost(next)
      else Play(exchange, renewed, player, next, player(chosen, event), ChosenAfter(chosen, event))
    case other => Settled(other)
  }

  /** A run from its start. */
  function PlayFrom(env: Env, player: Player, start: ScriptState): (r: Played)
    requires Paced(env.script)
  {
    ExchangingAdvances(env);
    Play(Exchanging(env), env.renewed, player, Begin(start), None, 0)
  }

  // ---------- What a run stages ----------

  /** The durable commands among the events of the first exchanges. */
  function IssuedEffects(script: Script, history: seq<Option<Input>>): (effects: seq<Effect>) {
    if history == [] then []
    else
      var front := IssuedEffects(script, history[..|history| - 1]);
      match script(history)
      case Some(Issued(sequence, command, arguments)) =>
        if Durable(command) then front + [Effect(sequence, command, arguments)] else front
      case _ => front
  }

  /** The staged state is the fold of the issued effects, which are in ascending order. */
  ghost predicate StagedFrom(script: Script, start: ScriptState, a: Active) {
    && a.effects == IssuedEffects(script, a.history)
    && StageAll(start, a.effects) == Ok(a.state)
    && Ascending(a.effects)
    && 0 <= LastSequence(a.effects) <= |a.history|
  }

  /** The effect that an event adds to the staged ones, if any. */
  function EffectOf(event: Event): (e: Option<Effect>) {
    match event
    case Issued(sequence, command, arguments) =>
      if Durable(command) then Some(Effect(sequence, command, arguments)) else None
    case _ => None
  }

  lemma ReactionStages(env: Env, a: Active, event: Event)
    requires React(env, a, event).Proceed?
    ensures
      var next := React(env, a, event).active;
      && next.history == a.history
      && (EffectOf(event).None? ==> next.state == a.state && next.effects == a.effects)
      && (EffectOf(event).Some? ==>
            && next.effects == a.effects + [EffectOf(event).value]
            && Stage(a.state, event.command, event.arguments) == Ok(next.state))
  {
  }

  lemma IssuedByOneMore(script: Script, history: seq<Option<Input>>, input: Option<Input>)
    requires script(history + [input]).Some?
    ensures
      var effect := EffectOf(script(history + [input]).value);
      IssuedEffects(script, history + [input])
        == IssuedEffects(script, history) + if effect.Some? then [effect.value] else []
  {
    var longer := history + [input];
    assert longer[..|longer| - 1] == history;
  }

  lemma StageOneMore(start: ScriptState, effects: seq<Effect>, staged: ScriptState, effect: Effect)
    requires StageAll(start, effects) == Ok(staged)
    ensures StageAll(start, effects + [effect]) == Stage(staged, effect.command, effect.arguments)
  {
    var all := effects + [effect];
    assert all[..|all| - 1] == effects;
  }

  lemma AscendingAppend(effects: seq<Effect>, effect: Effect)
    requires Ascending(effects) && effect.sequence > LastSequence(effects)
    ensures Ascending(effects + [effect])
  {
    var all := effects + [effect];
    assert all[..|all| - 1] == effects;
    AscendingByOneMore(all);
  }

  lemma EventStages(script: Script, start: ScriptState, a: Active, input: Option<Input>, event: Event, next: Active)
    requires Paced(script) && StagedFrom(script, start, a)
    requires next.history == a.history + [input] && script(next.history) == Some(event)
    requires EffectOf(event).None? ==> next.state == a.state && next.effects == a.effects
    requires EffectOf(event).Some? ==>
      && next.effects == a.effects + [EffectOf(event).value]
      && Stage(a.state, event.command, event.arguments) == Ok(next.state)
    ensures StagedFrom(script, start, next)
  {
    IssuedByOneMore(script, a.history, input);
    if EffectOf(event).Some? {
      StageOneMore(start, a.effects, a.state, EffectOf(event).value);
      AscendingAppend(a.effects, EffectOf(event).value);
    }
  }

  lemma ExchangeStages(env: Env, start: ScriptState, a: Active, input: Option<Input>)
    requires Paced(env.script) && StagedFrom(env.script, start, a) && Exchange(env, a, input).Proceed?
    ensures StagedFrom(env.script, start, Exchange(env, a, input).active)
  {
    var sent := Sent(a, input);
    var event := env.script(sent.history).value;
    ExchangeReacts(env, a, input);
    ReactionStages(env, sent, event);
    EventStages(env.script, start, a, input, event, Exchange(env, a, input).active);
  }

  /** An event that stops the loop without failing it stages nothing. */
  lemma StopStagesNothing(env: Env, a: Active, event: Event)
    requires React(env, a, event).Stop? && !React(env, a, event).result.Failed?
    ensures
      var last := React(env, a, event).result.active;
      EffectOf(event).None? && last.state == a.state && last.effects == a.effects && last.history == a.history
  {
  }

  lemma StopStages(env: Env, start: ScriptState, a: Active, input: Option<Input>)
    requires Paced(env.script) && StagedFrom(env.script, start, a)
    requires Exchange(env, a, input).Stop? && !Exchange(env, a, input).result.Failed?
    ensures StagedFrom(env.script, start, Exchange(env, a, input).result.active)
  {
    var sent := Sent(a, input);
    var event := env.script(sent.history).value;
    ExchangeReacts(env, a, input);
    StopStagesNothing(env, sent, event);
    EventStages(env.script, start, a, input, event, Exchange(env, a, input).result.active);
  }

  /** `keep` holds after an exchange if it held before, unless the run fails. */
  ghost predicate Keeps(exchange: Exchanger, keep: Active -> bool) {
    forall a, input :: keep(a) ==> KeptBy(keep, exchange(a, input))
  }

  predicate KeptBy(keep: Active -> bool, reaction: Reaction) {
    match reaction
    case Proceed(next, _) => keep(next)
    case Stop(result) => result.Failed? || keep(result.active)
  }

  lemma {:induction false} PumpKeeps(exchange: Exchanger, keep: Active -> bool, a: Active, input: Option<Input>)
    requires Advances(exchange) && Keeps(exchange, keep) && keep(a)
    ensures Pump(exchange, a, input).Failed? || keep(Pump(exchange, a, input).active)
    decreases MAX_YIELD_EVENTS + 1 - |a.history|
  {
    assert KeptBy(keep, exchange(a, input)) && AdvancesTo(a, exchange(a, input));
    match exchange(a, input)
    case Stop(_) =>
    case Proceed(next, reply) => PumpKeeps(exchange, keep, next, reply);
  }

  lemma {:induction false} PlayKeeps(
    exchange: Exchanger, keep: Active -> bool, renewed: nat -> bool, player: Player, a: Active, input: Option<Input>, chosen: nat)
    requires Advances(exchange) && Keeps(exchange, keep) && keep(a)
    ensures
      var played := Play(exchange, renewed, player, a, input, chosen);
      (played.Settled? && played.result.Failed?) || keep(played.Last())
    decreases MAX_YIELD_EVENTS + 1 - |a.history|
  {
    PumpKeeps(exchange, keep, a, input);
    match Pump(exchange, a, input)
    case Yielded(next, event) => PlayKeeps(exchange, keep, renewed, player, next, player(chosen, event), ChosenAfter(chosen, event));
    case _ =>
  }

  lemma ExchangeKeepsStaged(env: Env, start: ScriptState, a: Active, input: Option<Input>)
    requires Paced(env.script) && StagedFrom(env.script, start, a)
    ensures match Exchange(env, a, input)
      case Proceed(next, _) => StagedFrom(env.script, start, next)
      case Stop(result) => result.Failed? || StagedFrom(env.script, start, result.active)
  {
    if Exchange(env, a, input).Proceed? {
      ExchangeStages(env, start, a, input);
    } else if !Exchange(env, a, input).result.Failed? {
      StopStages(env, start, a, input);
    }
  }

  ghost function StagedBy(script: Script, start: ScriptState): (keep: Active -> bool) {
    a => StagedFrom(script, start, a)
  }

  lemma ExchangingKeepsStaged(env: Env, start: ScriptState)
    requires Paced(env.script)
    ensures Keeps(Exchanging(env), StagedBy(env.script, start))
  {
    var keep := StagedBy(env.script, start);
    forall a, input | keep(a) ensures KeptBy(keep, Exchanging(env)(a, input)) {
      ExchangeKeepsStaged(env, start, a, input);
    }
  }

  /**
   * Unless it fails, a played run has staged just the durable commands its script issued, in
   * ascending order, and its state is their fold over the starting state.
   */
  lemma PlayStages(env: Env, player: Player, start: ScriptState)
    requires Paced(env.script)
    ensures
      var played := PlayFrom(env, player, start);
      (played.Settled? && played.result.Failed?) || StagedFrom(env.script, start, played.Last())
  {
    ExchangingAdvances(env);
    ExchangingKeepsStaged(env, start);
    assert StagedBy(env.script, start)(Begin(start));
    PlayKeeps(Exchanging(env), StagedBy(env.script, start), env.renewed, player, Begin(start), None, 0);
    assert StagedBy(env.script, start)(PlayFrom(env, player, start).Last()) <==>
      StagedFrom(env.script, start, PlayFrom(env, player, start).Last());
  }

  /** A script asks for answers of registered types, so what the engine replies is what the protocol expects. */
  lemma RepliesAreProtocolAnswers(env: Env, a: Active, event: Event)
    requires React(env, a, event).Proceed?
    requires event.Asked? ==> RegisteredKind(event.query).Some?
    ensures RuntimeProtocol.Answers(event, React(env, a, event).input)
  {
    if event.Asked? {
      AnswersHaveTheRegisteredKind(a.state, env.facts, event.query, event.arguments, env.random(a.draws));
    }
  }

  lemma LastIsAbove(effects: seq<Effect>)
    requires Ascending(effects) && effects != []
    ensures LastSequence(effects[..|effects| - 1]) < effects[|effects| - 1].sequence
  {
  }

  lemma NextNeverOutOfOrder(c: Character, items: Items, run: int, effect: Effect)
    ensures ApplyNext(c, items, run, effect) != Err(EffectsOutOfOrder)
  {
  }

  lemma {:induction false} AscendingNeverOutOfOrder(c: Character, items: Items, run: int, effects: seq<Effect>)
    requires Ascending(effects)
    ensures ApplyAll(c, items, run, effects) != Err(EffectsOutOfOrder)
  {
    if effects != [] {
      var front, last := effects[..|effects| - 1], effects[|effects| - 1];
      AscendingNeverOutOfOrder(c, items, run, front);
      if ApplyAll(c, items, run, front).Ok? {
        NextNeverOutOfOrder(ApplyAll(c, items, run, front).value, items, run, last);
        LastIsAbove(effects);
      }
    }
  }

  /** Whatever the rows hold, the commit of a played run is never refused for the order of its effects. */
  lemma PlayedEffectsAreInOrder(env: Env, player: Player, start: ScriptState, c: Character, items: Items, run: int)
    requires Paced(env.script)
    ensures
      var played := PlayFrom(env, player, start);
      played.Settled? && played.result.ReadyToCommit? ==>
        CommitEffects(c, items, run, played.result.active.effects) != Err(EffectsOutOfOrder)
  {
    PlayStages(env, player, start);
    var played := PlayFrom(env, player, start);
    if played.Settled? && played.result.ReadyToCommit? {
      AscendingNeverOutOfOrder(c, items, run, played.result.active.effects);
    }
  }

  /**
   * From start to commit: a run that is played to its end and committed, while any other
   * transactions happen in between, leaves the story the engine showed the script, and moves yen and
   * every stack by the amounts the script saw.
   */
  lemma PlayedRunCommitsWhatTheScriptSaw(
    db: ScriptRuns.Db, items: Items, q: ScriptRuns.StartRequest, ops: seq<ScriptRuns.Op>, env: Env, player: Player, token: int, now: int)
    requires ScriptRunTheorems.Inv(db) && ScriptRuns.StartRun(db, q).Ok? && Paced(env.script)
    ensures
      var launch := ScriptRuns.StartRun(db, q).value;
      var later := ScriptRuns.AfterOps(launch.db, items, ops);
      var played := PlayFrom(env, player, launch.started.state);
      played.Settled? && played.result.ReadyToCommit? ==>
        var a := played.result.active;
        var committed := ScriptRuns.FinishRun(
          later, items, launch.started.run, token, launch.started.state.revision, a.effects, played.result.passed, now);
        && committed != Err(RevisionConflict)
        && (committed.Ok? ==>
              && q.character in later.characters && q.character in committed.value.characters
              && MovedAlike(later.characters[q.character], committed.value.characters[q.character], launch.started.state, a.state))
  {
    var launch := ScriptRuns.StartRun(db, q).value;
    var started := launch.started;
    var later := ScriptRuns.AfterOps(launch.db, items, ops);
    PlayStages(env, player, started.state);
    var played := PlayFrom(env, player, started.state);
    if played.Settled? && played.result.ReadyToCommit? {
      var a, passed := played.result.active, played.result.passed;
      ScriptRunTheorems.StartKeeps(db, q);
      ScriptRunTheorems.RevisionConflictIsUnreachable(
        launch.db, items, ops, started.run, token, started.state.revision, a.effects, passed, now);
      if ScriptRuns.FinishRun(later, items, started.run, token, started.state.revision, a.effects, passed, now).Ok? {
        ScriptRunTheorems.CommitRefinesStaging(
          db, items, q, ops, token, started.state.revision, a.effects, passed, now);
      }
    }
  }
}
