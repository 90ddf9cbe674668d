/** What a player is shown, what is traced, and how long a preview may be (internal/scriptevent/engine.go, internal/scriptevent/preview.go). */
module ScriptTraces {
  import opened Common
  import opened ScriptMessages
  import opened EventState
  import opened ScriptEngine
  import opened ScriptEndings
  import Rehearsals = ScriptPreview

  // ---------- What a player is shown ----------

  /** Lines and choices need their text, and a choice one that can be made. */
  ghost predicate CanBeShown(env: Env, event: Event) {
    match event
    case Line(_, lineId) => lineId in env.lines
    case Options(_, offers) =>
      && (exists i :: 0 <= i < |offers| && offers[i].isAvailable)
      && (forall i :: 0 <= i < |offers| ==> offers[i].lineId in env.lines && env.lines[offers[i].lineId] != None)
      && (forall i, j :: 0 <= i < j < |offers| ==> offers[i].id != offers[j].id)
    case Issued(_, command, _) => command.Presentation?
    case _ => false
  }

  /** The run waits for its player if and only if there is something to show, and fails if that cannot be shown. */
  lemma ShownIffItCanBe(env: Env, a: Active, event: Event)
    ensures React(env, a, event).Stop? && React(env, a, event).result.Yielded? <==> CanBeShown(env, event)
    ensures CanBeShown(env, event) ==> React(env, a, event).result == Yielded(a.(visibleYielded := true), event)
    ensures IsVisible(Some(event)) && !CanBeShown(env, event) ==> React(env, a, event).Stop? && React(env, a, event).result.Failed?
  {
  }

  /** An exchange that goes on has shown nothing; one that stops has sent its input, or nothing. */
  ghost predicate ShowsNothing(script: Script, a: Active, input: Option<Input>, reaction: Reaction) {
    match reaction
    case Proceed(next, _) => next.history == a.history + [input] && !IsVisible(script(next.history))
    case Stop(result) => result.active.history in {a.history, a.history + [input]}
  }

  lemma ExchangeShowsNothing(env: Env, a: Active, input: Option<Input>)
    ensures ShowsNothing(env.script, a, input, Exchange(env, a, input))
  {
    var sent := Sent(a, input);
    if env.script(sent.history).Some? {
      ExchangeReacts(env, a, input);
      ShownIffItCanBe(env, sent, env.script(sent.history).value);
    }
  }

  ghost predicate AllShowNothing(exchange: Exchanger, script: Script) {
    forall a, input :: ShowsNothing(script, a, input, exchange(a, input))
  }

  /** Nothing that is visible lies between the exchanges at which two histories stop. */
  ghost predicate NothingBetween(script: Script, from: seq<Option<Input>>, to: seq<Option<Input>>) {
    from <= to && forall n :: |from| < n < |to| ==> !IsVisible(EventAt(script, to, n))
  }

  lemma {:induction false} PumpSkipsNothing(exchange: Exchanger, script: Script, a: Active, input: Option<Input>)
    requires Advances(exchange) && AllShowNothing(exchange, script)
    ensures NothingBetween(script, a.history, Pump(exchange, a, input).active.history)
    decreases MAX_YIELD_EVENTS + 1 - |a.history|
  {
    assert AdvancesTo(a, exchange(a, input)) && ShowsNothing(script, a, input, exchange(a, input));
    match exchange(a, input)
    case Stop(_) =>
    case Proceed(next, reply) =>
      PumpSkipsNothing(exchange, script, next, reply);
      var to := Pump(exchange, a, input).active.history;
      assert to[..|next.history|] == next.history;
  }

  /** Between two stops of a run its script has said nothing that a player would see: everything visible is shown. */
  lemma NothingIsSkipped(env: Env, a: Active, input: Option<Input>)
    requires Paced(env.script)
    ensures Advances(Exchanging(env))
    ensures NothingBetween(env.script, a.history, Pump(Exchanging(env), a, input).active.history)
  {
    ExchangingAdvances(env);
    forall b, i ensures ShowsNothing(env.script, b, i, Exchanging(env)(b, i)) {
      ExchangeShowsNothing(env, b, i);
    }
    PumpSkipsNothing(Exchanging(env), env.script, a, input);
  }

  // ---------- What is traced ----------

  /** One step for each event, and one for each input sent. */
  function Steps(history: seq<Option<Input>>): (n: nat) {
    if history == [] then 0 else Steps(history[..|history| - 1]) + if history[|history| - 1].Some? then 2 else 1
  }

  /** Every event and input so far was recorded, in its turn. */
  ghost predicate Traced(recorded: nat -> bool, a: Active) {
    a.ordinal == Steps(a.history) && forall k: nat :: 1 <= k <= a.ordinal ==> recorded(k)
  }

  ghost predicate StaysTraced(recorded: nat -> bool, reaction: Reaction) {
    match reaction
    case Proceed(next, _) => Traced(recorded, next)
    case Stop(Failed(_, Trace)) => true
    case Stop(Failed(_, Runtime)) => true
    case Stop(result) => Traced(recorded, result.active)
  }

  lemma SendingSteps(a: Active, input: Option<Input>)
    ensures Steps(Sent(a, input).history) == Steps(a.history) + if input.Some? then 2 else 1
  {
    assert Sent(a, input).history[..|a.history|] == a.history;
  }

  lemma ReactingKeepsTheTrace(env: Env, a: Active, event: Event)
    ensures
      var after := match React(env, a, event) case Proceed(next, _) => next case Stop(result) => result.active;
      after.ordinal == a.ordinal && after.history == a.history
    ensures React(env, a, event).Stop? && React(env, a, event).result.Failed? ==> React(env, a, event).result.code !in {Trace, Runtime}
  {
  }

  lemma SentIsTraced(recorded: nat -> bool, a: Active, input: Option<Input>)
    requires Traced(recorded, a) && recorded(Sent(a, input).ordinal) && (input.Some? ==> recorded(a.ordinal + 1))
    ensures Traced(recorded, Sent(a, input))
  {
    SendingSteps(a, input);
  }

  lemma ReactionIsTraced(env: Env, a: Active, event: Event)
    requires Traced(env.recorded, a)
    ensures StaysTraced(env.recorded, React(env, a, event))
  {
    ReactingKeepsTheTrace(env, a, event);
    var r := React(env, a, event);
    var after := match r case Proceed(next, _) => next case Stop(result) => result.active;
    assert Traced(env.recorded, after);
  }

  /** An exchange takes place if the input, the event and their traces do. */
  lemma ExchangedIffRecorded(env: Env, a: Active, input: Option<Input>)
    ensures
      var r, sent := Exchange(env, a, input), Sent(a, input);
      if (input.Some? ==> env.recorded(a.ordinal + 1)) && env.script(sent.history).Some? && env.recorded(sent.ordinal)
      then r == React(env, sent, env.script(sent.history).value)
      else r.Stop? && r.result.Failed? && r.result.code in {Trace, Runtime}
  {
  }

  lemma ExchangeIsTraced(env: Env, a: Active, input: Option<Input>)
    requires Traced(env.recorded, a)
    ensures StaysTraced(env.recorded, Exchange(env, a, input))
  {
    var sent := Sent(a, input);
    ExchangedIffRecorded(env, a, input);
    if (input.Some? ==> env.recorded(a.ordinal + 1)) && env.script(sent.history).Some? && env.recorded(sent.ordinal) {
      SentIsTraced(env.recorded, a, input);
      ReactionIsTraced(env, sent, env.script(sent.history).value);
    }
  }

  ghost predicate AllTraced(exchange: Exchanger, recorded: nat -> bool) {
    forall a, input :: Traced(recorded, a) ==> StaysTraced(recorded, exchange(a, input))
  }

  lemma {:induction false} PumpIsTraced(exchange: Exchanger, recorded: nat -> bool, a: Active, input: Option<Input>)
    requires Advances(exchange) && AllTraced(exchange, recorded) && Traced(recorded, a)
    ensures StaysTraced(recorded, Stop(Pump(exchange, a, input)))
    decreases MAX_YIELD_EVENTS + 1 - |a.history|
  {
    assert AdvancesTo(a, exchange(a, input)) && StaysTraced(recorded, exchange(a, input));
    match exchange(a, input)
    case Stop(_) =>
    case Proceed(next, reply) => PumpIsTraced(exchange, recorded, next, reply);
  }

  lemma {:induction false} PlayIsTraced(
    exchange: Exchanger, recorded: nat -> bool, renewed: nat -> bool, player: Player, a: Active, input: Option<Input>, chosen: nat)
    requires Advances(exchange) && AllTraced(exchange, recorded) && Traced(recorded, a)
    ensures
      var played := Play(exchange, renewed, player, a, input, chosen);
      played.Settled? ==> StaysTraced(recorded, Stop(played.result))
    decreases MAX_YIELD_EVENTS + 1 - |a.history|
  {
    PumpIsTraced(exchange, recorded, a, input);
    match Pump(exchange, a, input)
    case Yielded(next, event) =>
      PlayIsTraced(exchange, recorded, renewed, player, next, player(chosen, event), ChosenAfter(chosen, event));
    case _ =>
  }

  /**
   * Whatever a run commits, passes on or gives up has been traced without a gap: each event, and each input
   * that was sent. An input that cannot be traced is not sent.
   */
  lemma EverythingIsTraced(env: Env, player: Player, start: ScriptState)
    requires Paced(env.script)
    ensures
      var played := PlayFrom(env, player, start);
      played.Settled? ==> StaysTraced(env.recorded, Stop(played.result))
  {
    ExchangingAdvances(env);
    forall a, input | Traced(env.recorded, a) ensures StaysTraced(env.recorded, Exchanging(env)(a, input)) {
      ExchangeIsTraced(env, a, input);
    }
    PlayIsTraced(Exchanging(env), env.recorded, env.renewed, player, Begin(start), None, 0);
  }

  lemma UntracedInputsAreNotSent(env: Env, a: Active, input: Input)
    requires !env.recorded(a.ordinal + 1)
    ensures Exchange(env, a, Some(input)) == Stop(Failed(a, Trace))
  {
  }

  // ---------- Whose lease a run goes on by ----------

  /** From a stop a run waits without an input, goes on by a renewed lease, and is lost without one. */
  lemma GoesOnByItsLease(exchange: Exchanger, renewed: nat -> bool, player: Player, a: Active, input: Option<Input>, chosen: nat)
    requires Advances(exchange) && Pump(exchange, a, input).Yielded?
    ensures
      var played, stop := Play(exchange, renewed, player, a, input, chosen), Pump(exchange, a, input);
      var answer := player(chosen, stop.event);
      && (answer == None ==> played == AwaitsPlayer(stop.active))
      && (answer != None && !renewed(|stop.active.history|) ==> played == LeaseLost(stop.active))
      && (answer != None && renewed(|stop.active.history|) ==>
            played == Play(
              exchange, renewed, player, stop.active, answer, if stop.event.Options? then chosen + 1 else chosen))
  {
  }

  // ---------- How long a preview may be ----------

  /** The script went on through all these exchanges. */
  ghost predicate GoesOn(script: Script, history: seq<Option<Input>>, from: nat) {
    forall n: nat :: from < n <= |history| ==> EventAt(script, history, n).Some?
  }

  lemma {:induction false} PreviewIsLimited(
    fixture: Rehearsals.Fixture, p: Rehearsals.Rehearsal, input: Option<Input>, count: nat) returns (history: seq<Option<Input>>)
    requires count <= 512
    ensures
      var outcome := Rehearsals.Preview(Rehearsals.Turning(fixture), p, input, count);
      if outcome.TooLong? then p.history <= history && |history| == |p.history| + 512 - count && GoesOn(fixture.script, history, |p.history|)
      else |outcome.rehearsal.history| <= |p.history| + 512 - count
    decreases 512 - count
  {
    history := p.history;
    if count < 512 {
      var turn := Rehearsals.Turning(fixture)(p, input);
      assert turn == Rehearsals.Turned(fixture, p, input);
      Rehearsals.TurnsAreCounted(fixture, p, input);
      if turn.GoOn? {
        TurnsAppend(fixture, p, input);
        history := PreviewIsLimited(fixture, turn.rehearsal, turn.input, count + 1);
        assert Rehearsals.Preview(Rehearsals.Turning(fixture), p, input, count)
          == Rehearsals.Preview(Rehearsals.Turning(fixture), turn.rehearsal, turn.input, count + 1);
        if Rehearsals.Preview(Rehearsals.Turning(fixture), p, input, count).TooLong? {
          assert history[..|p.history| + 1] == turn.rehearsal.history;
        }
      }
    }
  }

  lemma TurnsAppend(fixture: Rehearsals.Fixture, p: Rehearsals.Rehearsal, input: Option<Input>)
    requires Rehearsals.Turned(fixture, p, input).GoOn?
    ensures Rehearsals.Turned(fixture, p, input).rehearsal.history == p.history + [input]
    ensures fixture.script(p.history + [input]).Some?
  {
  }

  /** A preview is too long only when its script still goes on after 512 exchanges; any other takes no more. */
  lemma PreviewsTakeUpTo512Exchanges(fixture: Rehearsals.Fixture, start: ScriptState) returns (history: seq<Option<Input>>)
    ensures
      var outcome := Rehearsals.PreviewFrom(fixture, start);
      if outcome.TooLong? then |history| == 512 && GoesOn(fixture.script, history, 0) else |outcome.rehearsal.history| <= 512
  {
    history := PreviewIsLimited(fixture, Rehearsals.Rehearse(start), None, 0);
  }
}
