/** The author's preview of a script against a fixture, and what it tells about live runs (internal/scriptevent/preview.go). */
module ScriptPreview {
  import opened Common
  import opened ScriptMessages
  import opened EventState
  import opened ScriptEngine

  const MAX_PREVIEW_EVENTS := 512

  /** `randoms` and `selections` answer the script's draws and choices in turn. */
  datatype Fixture = Fixture(
    script: Script, lines: map<string, Option<string>>, facts: WorldFacts, randoms: seq<int>, selections: seq<int>)

  datatype Rehearsal = Rehearsal(
    history: seq<Option<Input>>, state: ScriptState, effects: seq<Effect>, completionRequested: bool,
    randomIndex: nat, optionIndex: nat, steps: seq<Event>)

  function Rehearse(start: ScriptState): (p: Rehearsal) {
    Rehearsal([], start, [], false, 0, 0, [])
  }

  datatype Outcome =
    | PreviewComplete(rehearsal: Rehearsal)
    | PreviewDeclined(rehearsal: Rehearsal)
    | PreviewCancelled(rehearsal: Rehearsal)
    | Refused(rehearsal: Rehearsal)
    | TooLong

  function NextRandom(fixture: Fixture, index: nat): (r: Option<int>) {
    if index < |fixture.randoms| then Some(fixture.randoms[index]) else None
  }

  datatype Turn = GoOn(rehearsal: Rehearsal, input: Option<Input>) | Over(outcome: Outcome)

  function TurnCommand(p: Rehearsal, event: Event): (r: Turn)
    requires event.Issued?
  {
    if Durable(event.command) then
      match Stage(p.state, event.command, event.arguments)
      case Err(_) => Over(Refused(p))
      case Ok(state) =>
        var effect := Effect(event.sequence, event.command, event.arguments);
        GoOn(p.(state := state, effects := p.effects + [effect]), Some(Continue))
    else if event.command == CompleteCommand then GoOn(p.(completionRequested := true), Some(Continue))
    else if event.command == PassTrigger then Over(PreviewDeclined(p.(steps := p.steps + [event])))
    else if event.command.Presentation? then GoOn(p.(steps := p.steps + [event]), Some(Continue))
    else Over(Refused(p))
  }

  function TurnOn(fixture: Fixture, p: Rehearsal, event: Event): (r: Turn) {
    match event
    case NodeStart(_, _) => GoOn(p, None)
    case NodeComplete(_, _) => GoOn(p, None)
    case Asked(_, queryId, query, arguments) =>
      // An empty list of randoms is not consumed by a draw that finds it empty.
      var drawn := Draws(query, arguments) && p.randomIndex < |fixture.randoms|;
      var after := if drawn then p.(randomIndex := p.randomIndex + 1) else p;
      (match ResolveQuery(p.state, fixture.facts, query, arguments, NextRandom(fixture, p.randomIndex))
       case None => Over(Refused(after))
       case Some(value) => GoOn(after, Some(QueryResult(queryId, value))))
    case Issued(_, _, _) => TurnCommand(p, event)
    case Line(_, lineId) =>
      if lineId in fixture.lines then GoOn(p.(steps := p.steps + [event]), Some(Continue)) else Over(Refused(p))
    case Options(_, offers) =>
      if !Presentable(fixture.lines, offers) then Over(Refused(p))
      else
        var shown := p.(steps := p.steps + [event]);
        if p.optionIndex >= |fixture.selections| then Over(Refused(shown))
        else GoOn(shown.(optionIndex := p.optionIndex + 1), Some(Select(fixture.selections[p.optionIndex])))
    case Completed(_) => if p.completionRequested then Over(PreviewComplete(p)) else Over(Refused(p))
    case Cancelled(_) => Over(PreviewCancelled(p))
    case _ => Over(Refused(p))
  }

  function Turned(fixture: Fixture, p: Rehearsal, input: Option<Input>): (r: Turn) {
    var sent := p.(history := p.history + [input]);
    match fixture.script(sent.history)
    case None => Over(Refused(sent))
    case Some(event) => TurnOn(fixture, sent, event)
  }

  /** What one exchange makes of a rehearsal, with some fixture. */
  type Turner = (Rehearsal, Option<Input>) -> Turn

  function Turning(fixture: Fixture): (turner: Turner) {
    (p, input) => Turned(fixture, p, input)
  }

  function Preview(turner: Turner, p: Rehearsal, input: Option<Input>, count: nat): (r: Outcome)
    requires count <= MAX_PREVIEW_EVENTS
    decreases MAX_PREVIEW_EVENTS - count
  {
    if count == MAX_PREVIEW_EVENTS then TooLong
    else
      match turner(p, input)
      case Over(outcome) => outcome
      case GoOn(next, reply) => Preview(turner, next, reply, count + 1)
  }

  function PreviewFrom(fixture: Fixture, start: ScriptState): (r: Outcome) {
    Preview(Turning(fixture), Rehearse(start), None, 0)
  }

  /** One command of the script, on the preview's own staged state. */
  method RehearseCommand(staging: Staging, before: Rehearsal, event: Event) returns (turn: Turn)
    requires event.Issued? && before.state == staging.state && before.effects == staging.effects
    modifies staging
    ensures turn == TurnCommand(before, event)
    ensures turn.GoOn? ==> turn.rehearsal.state == staging.state && turn.rehearsal.effects == staging.effects
  {
    var command := event.command;
    if Durable(command) {
      var error := staging.StageEffect(Effect(event.sequence, command, event.arguments));
      if error.Some? { return Over(Refused(before)); }
      return GoOn(before.(state := staging.state, effects := staging.effects), Some(Continue));
    }
    if command == CompleteCommand { return GoOn(before.(completionRequested := true), Some(Continue)); }
    if command == PassTrigger { return Over(PreviewDeclined(before.(steps := before.steps + [event]))); }
    if command.Presentation? { return GoOn(before.(steps := before.steps + [event]), Some(Continue)); }
    return Over(Refused(before));
  }

  /** One event of the script, on the preview's own staged state. */
  method RehearseEvent(fixture: Fixture, staging: Staging, before: Rehearsal, event: Event) returns (turn: Turn)
    requires before.state == staging.state && before.effects == staging.effects
    modifies staging
    ensures turn == TurnOn(fixture, before, event)
    ensures turn.GoOn? ==> turn.rehearsal.state == staging.state && turn.rehearsal.effects == staging.effects
  {
    var p := before;
    match event {
      case NodeStart(_, _) => return GoOn(p, None);
      case NodeComplete(_, _) => return GoOn(p, None);
      case Asked(_, queryId, query, arguments) =>
        var value := ResolveQuery(p.state, fixture.facts, query, arguments, NextRandom(fixture, p.randomIndex));
        if Draws(query, arguments) && p.randomIndex < |fixture.randoms| {
          p := p.(randomIndex := p.randomIndex + 1);
        }
        if value.None? { return Over(Refused(p)); }
        return GoOn(p, Some(QueryResult(queryId, value.value)));
      case Issued(_, _, _) =>
        turn := RehearseCommand(staging, p, event);
      case Line(_, lineId) =>
        if lineId !in fixture.lines { return Over(Refused(p)); }
        return GoOn(p.(steps := p.steps + [event]), Some(Continue));
      case Options(_, offers) =>
        var ok := PresentOptions(fixture.lines, offers);
        if !ok { return Over(Refused(p)); }
        p := p.(steps := p.steps + [event]);
        if p.optionIndex >= |fixture.selections| { return Over(Refused(p)); }
        return GoOn(p.(optionIndex := p.optionIndex + 1), Some(Select(fixture.selections[p.optionIndex])));
      case Completed(_) => return Over(if p.completionRequested then PreviewComplete(p) else Refused(p));
      case Cancelled(_) => return Over(PreviewCancelled(p));
      case Unrecognised(_) => return Over(Refused(p));
      case Crashed(_) => return Over(Refused(p));
    }
  }

  /** The preview's loop over its own staged state, draws and selections. */
  method RunPreview(fixture: Fixture, start: ScriptState) returns (outcome: Outcome)
    ensures outcome == PreviewFrom(fixture, start)
  {
    var staging := new Staging(start);
    var p := Rehearse(start);
    var input: Option<Input> := None;
    for count := 0 to MAX_PREVIEW_EVENTS
      invariant fresh(staging) && p.state == staging.state && p.effects == staging.effects
      invariant Preview(Turning(fixture), p, input, count) == PreviewFrom(fixture, start)
    {
      ghost var turned := Turning(fixture)(p, input);
      p := p.(history := p.history + [input]);
      var event := fixture.script(p.history);
      if event.None? { return Refused(p); }
      var turn := RehearseEvent(fixture, staging, p, event.value);
      assert turn == turned;
      if turn.Over? { return turn.outcome; }
      p, input := turn.rehearsal, turn.input;
    }
    return TooLong;
  }

  // ---------- Preview against live play ----------

  /** The live run is offered what the fixture holds. */
  ghost predicate SameWorld(env: Env, fixture: Fixture) {
    && env.script == fixture.script && env.lines == fixture.lines && env.facts == fixture.facts
    && (forall n :: 0 <= n < |fixture.randoms| ==> env.random(n) == Some(fixture.randoms[n]))
  }

  ghost predicate SameProgress(a: Active, p: Rehearsal) {
    && a.history == p.history && a.state == p.state && a.effects == p.effects
    && a.completionRequested == p.completionRequested
    && a.draws == p.randomIndex
    && (a.visibleYielded <==> p.steps != [])
  }

  /** The live run was not disturbed from outside, and drew no more than the fixture holds. */
  predicate Undisturbed(played: Played, fixture: Fixture) {
    && !played.LeaseLost?
    && !(played.Settled? && played.result.Failed? && played.result.code == Trace)
    && played.Last().draws <= |fixture.randoms|
  }

  /** Staged state, effects and inputs are the same, and both runs end in the same way. */
  ghost predicate SameEnd(played: Played, outcome: Outcome) {
    && !outcome.TooLong?
    && played.Last().history == outcome.rehearsal.history
    && played.Last().state == outcome.rehearsal.state
    && played.Last().effects == outcome.rehearsal.effects
    && (match outcome
        case PreviewComplete(_) => played.Settled? && played.result.ReadyToCommit? && !played.result.passed
        case PreviewDeclined(p) =>
          played.Settled?
          && (if |p.steps| == 1 then played.result.ReadyToCommit? && played.result.passed
              else played.result.Failed? && played.result.code == LateTriggerPass)
        case PreviewCancelled(_) => played.Settled? && played.result.EndedByScript?
        case Refused(_) =>
          played.AwaitsPlayer?
          || (played.Settled? && played.result.Failed? && played.result.code !in {Trace, LateTriggerPass})
        case TooLong => false)
  }

  /** One event moves both runs alike. */
  ghost predicate SameTurn(reaction: Reaction, turn: Turn, fixture: Fixture, optionIndex: nat) {
    match reaction
    case Proceed(next, reply) =>
      turn.GoOn? && turn.input == reply && SameProgress(next, turn.rehearsal) && turn.rehearsal.optionIndex == optionIndex
    case Stop(Yielded(next, event)) =>
      if event.Options? && optionIndex >= |fixture.selections| then
        turn.Over? && SameEnd(AwaitsPlayer(next), turn.outcome)
      else
        && turn.GoOn? && SameProgress(next, turn.rehearsal)
        && turn.input == Some(if event.Options? then Select(fixture.selections[optionIndex]) else Continue)
        && turn.rehearsal.optionIndex == (if event.Options? then optionIndex + 1 else optionIndex)
    case Stop(result) => turn.Over? && SameEnd(Settled(result), turn.outcome)
  }

  lemma QueryTurnsAlike(env: Env, fixture: Fixture, a: Active, p: Rehearsal, event: Event)
    requires SameWorld(env, fixture) && SameProgress(a, p) && event.Asked?
    requires Draws(event.query, event.arguments) ==> a.draws < |fixture.randoms|
    ensures SameTurn(React(env, a, event), TurnOn(fixture, p, event), fixture, p.optionIndex)
  {
    if !Draws(event.query, event.arguments) {
      OnlyDrawingQueriesUseTheSource(
        a.state, env.facts, event.query, event.arguments, env.random(a.draws), NextRandom(fixture, p.randomIndex));
    }
  }

  lemma CommandTurnsAlike(env: Env, fixture: Fixture, a: Active, p: Rehearsal, event: Event)
    requires SameWorld(env, fixture) && SameProgress(a, p) && event.Issued?
    ensures SameTurn(React(env, a, event), TurnOn(fixture, p, event), fixture, p.optionIndex)
  {
    var reaction, turn := React(env, a, event), TurnOn(fixture, p, event);
    if Durable(event.command) {
    } else if event.command == PassTrigger {
      assert |p.steps + [event]| == 1 <==> p.steps == [];
    }
  }

  lemma EventTurnsAlike(env: Env, fixture: Fixture, a: Active, p: Rehearsal, event: Event)
    requires SameWorld(env, fixture) && SameProgress(a, p)
    requires event.Asked? && Draws(event.query, event.arguments) ==> a.draws < |fixture.randoms|
    ensures SameTurn(React(env, a, event), TurnOn(fixture, p, event), fixture, p.optionIndex)
  {
    if event.Asked? {
      QueryTurnsAlike(env, fixture, a, p, event);
    } else if event.Issued? {
      CommandTurnsAlike(env, fixture, a, p, event);
    }
  }

  /** An exchange draws once exactly when its event asks for a draw. */
  lemma ReactionDraws(env: Env, a: Active, event: Event)
    ensures
      var after := match React(env, a, event) case Proceed(next, _) => next case Stop(result) => result.active;
      && after.history == a.history
      && after.draws == if event.Asked? && Draws(event.query, event.arguments) then a.draws + 1 else a.draws
  {
  }

  function After(reaction: Reaction): (a: Active) {
    match reaction case Proceed(next, _) => next case Stop(result) => result.active
  }

  /** An exchange that was traced, and drew no more than the fixture holds. */
  predicate Calm(reaction: Reaction, fixture: Fixture) {
    && !(reaction.Stop? && reaction.result.Failed? && reaction.result.code == Trace)
    && After(reaction).draws <= |fixture.randoms|
  }

  predicate Counted(turn: Turn, count: nat) {
    match turn
    case GoOn(next, _) => |next.history| == count
    case Over(outcome) => !outcome.TooLong? && |outcome.rehearsal.history| == count
  }

  lemma TurnsAreCounted(fixture: Fixture, p: Rehearsal, input: Option<Input>)
    ensures Counted(Turned(fixture, p, input), |p.history| + 1)
  {
  }

  lemma EventCalm(env: Env, fixture: Fixture, sent: Active, p: Rehearsal, event: Event)
    requires SameWorld(env, fixture) && SameProgress(sent, p) && Calm(React(env, sent, event), fixture)
    ensures SameTurn(React(env, sent, event), TurnOn(fixture, p, event), fixture, p.optionIndex)
  {
    ReactionDraws(env, sent, event);
    EventTurnsAlike(env, fixture, sent, p, event);
  }

  /** One calm exchange of the live run is one turn of the preview. */
  lemma ExchangeTurnsAlike(env: Env, fixture: Fixture, a: Active, p: Rehearsal, input: Option<Input>)
    requires SameWorld(env, fixture) && SameProgress(a, p) && Calm(Exchange(env, a, input), fixture)
    ensures SameTurn(Exchange(env, a, input), Turned(fixture, p, input), fixture, p.optionIndex)
  {
    var sent, rehearsed := Sent(a, input), p.(history := p.history + [input]);
    if env.script(sent.history).Some? {
      ExchangeReacts(env, a, input);
      EventCalm(env, fixture, sent, rehearsed, env.script(sent.history).value);
    } else {
      assert Turned(fixture, p, input) == Over(Refused(rehearsed));
    }
  }

  /** An exchange draws no less than before, and is counted unless it could not be traced. */
  predicate DrawsOn(a: Active, reaction: Reaction) {
    a.draws <= After(reaction).draws && (|a.history| < |After(reaction).history| || reaction == Stop(Failed(a, Trace)))
  }

  lemma ExchangeDraws(env: Env, a: Active, input: Option<Input>)
    ensures DrawsOn(a, Exchange(env, a, input))
  {
    var sent := Sent(a, input);
    if env.script(sent.history).Some? {
      ExchangeReacts(env, a, input);
      ReactionDraws(env, sent, env.script(sent.history).value);
    }
  }

  // ---------- Run against run ----------

  ghost predicate Drawing(exchange: Exchanger) {
    forall a, input :: DrawsOn(a, exchange(a, input))
  }

  /** Calm exchanges turn both alike, one for one. */
  ghost predicate TurnAlike(exchange: Exchanger, turner: Turner, fixture: Fixture) {
    forall a, p, input :: SameProgress(a, p) && Calm(exchange(a, input), fixture) ==>
      SameTurn(exchange(a, input), turner(p, input), fixture, p.optionIndex) && Counted(turner(p, input), |p.history| + 1)
  }

  lemma {:induction false} PumpDraws(exchange: Exchanger, a: Active, input: Option<Input>)
    requires Advances(exchange) && Drawing(exchange)
    ensures
      var r := Pump(exchange, a, input);
      a.draws <= r.active.draws && (|a.history| < |r.active.history| || r == Failed(a, Trace))
    decreases MAX_YIELD_EVENTS + 1 - |a.history|
  {
    assert AdvancesTo(a, exchange(a, input)) && DrawsOn(a, exchange(a, input));
    match exchange(a, input)
    case Stop(_) =>
    case Proceed(next, reply) => PumpDraws(exchange, next, reply);
  }

  lemma {:induction false} PlayDraws(
    exchange: Exchanger, renewed: nat -> bool, player: Player, a: Active, input: Option<Input>, chosen: nat)
    requires Advances(exchange) && Drawing(exchange)
    ensures
      var played := Play(exchange, renewed, player, a, input, chosen);
      && a.draws <= played.Last().draws
      && (|a.history| < |played.Last().history| || played == Settled(Failed(a, Trace)))
    decreases MAX_YIELD_EVENTS + 1 - |a.history|
  {
    PumpDraws(exchange, a, input);
    match Pump(exchange, a, input)
    case Yielded(next, event) => PlayDraws(exchange, renewed, player, next, player(chosen, event), ChosenAfter(chosen, event));
    case _ =>
  }

  /** Play, one exchange at a time. */
  function PlayOn(exchange: Exchanger, renewed: nat -> bool, player: Player, reaction: Reaction, chosen: nat): (r: Played)
    requires Advances(exchange)
  {
    match reaction
    case Proceed(next, reply) => Play(exchange, renewed, player, next, reply, chosen)
    case Stop(Yielded(next, event)) =>
      if player(chosen, event).None? then AwaitsPlayer(next)
      else if !renewed(|next.history|) then LeaseLost(next)
      else Play(exchange, renewed, player, next, player(chosen, event), ChosenAfter(chosen, event))
    case Stop(other) => Settled(other)
  }

  lemma PlayUnfolds(exchange: Exchanger, renewed: nat -> bool, player: Player, a: Active, input: Option<Input>, chosen: nat)
    requires Advances(exchange)
    ensures Play(exchange, renewed, player, a, input, chosen) == PlayOn(exchange, renewed, player, exchange(a, input), chosen)
  {
    assert AdvancesTo(a, exchange(a, input));
  }

  /** If the rest of the run is undisturbed, so was the exchange before it. */
  lemma UndisturbedIsCalm(
    exchange: Exchanger, renewed: nat -> bool, player: Player, fixture: Fixture, reaction: Reaction, chosen: nat)
    requires Advances(exchange) && Drawing(exchange)
    requires Undisturbed(PlayOn(exchange, renewed, player, reaction, chosen), fixture)
    ensures Calm(reaction, fixture)
  {
    match reaction
    case Proceed(next, reply) => PlayDraws(exchange, renewed, player, next, reply, chosen);
    case Stop(Yielded(next, event)) =>
      PlayDraws(exchange, renewed, player, next, player(chosen, event), ChosenAfter(chosen, event));
    case Stop(_) =>
  }

  ghost predicate Agree(played: Played, outcome: Outcome) {
    if |played.Last().history| > MAX_PREVIEW_EVENTS then outcome == TooLong else SameEnd(played, outcome)
  }

  lemma BothGoOn(exchange: Exchanger, renewed: nat -> bool, fixture: Fixture, reaction: Reaction, turn: Turn, chosen: nat)
    requires Advances(exchange) && SameTurn(reaction, turn, fixture, chosen) && turn.GoOn?
    requires !PlayOn(exchange, renewed, Taking(fixture.selections), reaction, chosen).LeaseLost?
    ensures SameProgress(After(reaction), turn.rehearsal)
    ensures PlayOn(exchange, renewed, Taking(fixture.selections), reaction, chosen)
      == Play(exchange, renewed, Taking(fixture.selections), After(reaction), turn.input, turn.rehearsal.optionIndex)
  {
  }

  lemma BothEnd(exchange: Exchanger, renewed: nat -> bool, fixture: Fixture, reaction: Reaction, turn: Turn, chosen: nat)
    requires Advances(exchange) && SameTurn(reaction, turn, fixture, chosen) && turn.Over?
    requires !PlayOn(exchange, renewed, Taking(fixture.selections), reaction, chosen).LeaseLost?
    ensures SameEnd(PlayOn(exchange, renewed, Taking(fixture.selections), reaction, chosen), turn.outcome)
  {
  }

  lemma {:induction false} PreviewFollowsPlay(
    exchange: Exchanger, turner: Turner, renewed: nat -> bool, fixture: Fixture, a: Active, p: Rehearsal, input: Option<Input>,
    count: nat)
    requires Advances(exchange) && Drawing(exchange) && TurnAlike(exchange, turner, fixture) && SameProgress(a, p)
    requires count == |a.history| <= MAX_PREVIEW_EVENTS
    requires Undisturbed(Play(exchange, renewed, Taking(fixture.selections), a, input, p.optionIndex), fixture)
    ensures Agree(Play(exchange, renewed, Taking(fixture.selections), a, input, p.optionIndex), Preview(turner, p, input, count))
    decreases MAX_PREVIEW_EVENTS - count
  {
    if count == MAX_PREVIEW_EVENTS {
      PlayDraws(exchange, renewed, Taking(fixture.selections), a, input, p.optionIndex);
    } else {
      var reaction, turn := exchange(a, input), turner(p, input);
      PlayUnfolds(exchange, renewed, Taking(fixture.selections), a, input, p.optionIndex);
      UndisturbedIsCalm(exchange, renewed, Taking(fixture.selections), fixture, reaction, p.optionIndex);
      assert SameTurn(reaction, turn, fixture, p.optionIndex) && Counted(turn, count + 1);
      if turn.GoOn? {
        BothGoOn(exchange, renewed, fixture, reaction, turn, p.optionIndex);
        PreviewFollowsPlay(exchange, turner, renewed, fixture, After(reaction), turn.rehearsal, turn.input, count + 1);
      } else {
        BothEnd(exchange, renewed, fixture, reaction, turn, p.optionIndex);
      }
    }
  }

  lemma RunsTurnAlike(env: Env, fixture: Fixture)
    requires SameWorld(env, fixture)
    ensures TurnAlike(Exchanging(env), Turning(fixture), fixture)
  {
    forall a, p, input | SameProgress(a, p) && Calm(Exchanging(env)(a, input), fixture)
      ensures SameTurn(Exchanging(env)(a, input), Turning(fixture)(p, input), fixture, p.optionIndex)
      ensures Counted(Turning(fixture)(p, input), |p.history| + 1)
    {
      ExchangeTurnsAlike(env, fixture, a, p, input);
      TurnsAreCounted(fixture, p, input);
    }
  }

  lemma RunsDraw(env: Env)
    ensures Drawing(Exchanging(env))
  {
    forall a, input ensures DrawsOn(a, Exchanging(env)(a, input)) {
      ExchangeDraws(env, a, input);
    }
  }

  /**
   * Preview simulates live execution. Against the same events, start, facts, draws and choices, the
   * preview of a run of at most 512 exchanges ends as the live run does, with the same state and
   * effects; a longer run exceeds the preview's bound, and no other does.
   */
  lemma PreviewSimulatesPlay(env: Env, fixture: Fixture, start: ScriptState)
    requires Paced(env.script) && SameWorld(env, fixture)
    requires Undisturbed(PlayFrom(env, Taking(fixture.selections), start), fixture)
    ensures Agree(PlayFrom(env, Taking(fixture.selections), start), PreviewFrom(fixture, start))
  {
    ExchangingAdvances(env);
    RunsDraw(env);
    RunsTurnAlike(env, fixture);
    PreviewFollowsPlay(Exchanging(env), Turning(fixture), env.renewed, fixture, Begin(start), Rehearse(start), None, 0);
  }

  /**
   * A preview that declines promises a live pass exactly when the script had shown nothing before it
   * passed: after a visible yield the live run fails instead.
   */
  lemma DeclinedPreviewPassesIffNothingWasShown(env: Env, fixture: Fixture, start: ScriptState)
    requires Paced(env.script) && SameWorld(env, fixture)
    requires Undisturbed(PlayFrom(env, Taking(fixture.selections), start), fixture)
    requires PreviewFrom(fixture, start).PreviewDeclined?
    ensures
      var played := PlayFrom(env, Taking(fixture.selections), start);
      (played.Settled? && played.result.ReadyToCommit? && played.result.passed)
        <==> |PreviewFrom(fixture, start).rehearsal.steps| == 1
  {
    PreviewSimulatesPlay(env, fixture, start);
  }

  /** A script that shows a line and then passes. */
  function ShowsThenPasses(history: seq<Option<Input>>): (event: Option<Event>) {
    if |history| == 1 then Some(Line(1, "line"))
    else if |history| == 2 then Some(Issued(2, PassTrigger, []))
    else None
  }

  lemma PreviewCanDeclineWhatFailsLive(start: ScriptState, facts: WorldFacts)
    ensures
      var lines := map["line" := Some("Hello")];
      var fixture := Fixture(ShowsThenPasses, lines, facts, [], []);
      var env := Env(ShowsThenPasses, lines, facts, n => None, n => true, n => true);
      && Paced(env.script)
      && PreviewFrom(fixture, start).PreviewDeclined?
      && PlayFrom(env, Taking([]), start).Settled? && PlayFrom(env, Taking([]), start).result.Failed?
  {
    var lines := map["line" := Some("Hello")];
    var fixture := Fixture(ShowsThenPasses, lines, facts, [], []);
    var env := Env(ShowsThenPasses, lines, facts, n => None, n => true, n => true);
    var turner, exchange := Turning(fixture), Exchanging(env);
    ExchangingAdvances(env);
    var p := turner(Rehearse(start), None);
    assert p == GoOn(Rehearse(start).(history := [None], steps := [Line(1, "line")]), Some(Continue));
    assert turner(p.rehearsal, p.input).Over?;
    assert Preview(turner, Rehearse(start), None, 0) == Preview(turner, p.rehearsal, p.input, 1);
    var a := exchange(Begin(start), None);
    assert a.Stop? && a.result.Yielded?;
    assert exchange(a.result.active, Some(Continue)).Stop?;
    PlayUnfolds(exchange, env.renewed, Taking([]), Begin(start), None, 0);
    PlayUnfolds(exchange, env.renewed, Taking([]), a.result.active, Some(Continue), 0);
  }
}
