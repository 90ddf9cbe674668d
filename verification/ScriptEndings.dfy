/** How a played run ends is what its script said (internal/scriptevent/engine.go). */
module ScriptEndings {
  import opened Common
  import opened ScriptMessages
  import opened EventState
  import opened ScriptEngine

  /** The event of the `n`-th exchange of a run. */
  function EventAt(script: Script, history: seq<Option<Input>>, n: nat): (e: Option<Event>)
    requires n <= |history|
  {
    script(history[..n])
  }

  /** The script asked for completion within the exchanges so far. */
  ghost predicate AskedToComplete(script: Script, history: seq<Option<Input>>) {
    exists n: nat :: 1 <= n <= |history| && IsCompletion(EventAt(script, history, n))
  }

  predicate IsCompletion(e: Option<Event>) {
    e.Some? && e.value.Issued? && e.value.command == CompleteCommand
  }

  /** Something that a player sees: a line, a choice, or a presentation. */
  predicate IsVisible(e: Option<Event>) {
    e.Some? && (e.value.Line? || e.value.Options? || (e.value.Issued? && e.value.command.Presentation?))
  }

  /** The player has seen something within the exchanges so far. */
  ghost predicate Seen(script: Script, history: seq<Option<Input>>) {
    exists n: nat :: 1 <= n <= |history| && IsVisible(EventAt(script, history, n))
  }

  /** The run remembers whether completion was asked for, and whether anything was seen. */
  ghost predicate Recalls(script: Script, a: Active) {
    && (a.completionRequested <==> AskedToComplete(script, a.history))
    && (a.visibleYielded <==> Seen(script, a.history))
  }

  lemma OneExchangeMore(script: Script, history: seq<Option<Input>>, input: Option<Input>)
    ensures
      var longer, e := history + [input], script(history + [input]);
      && (AskedToComplete(script, longer) <==> AskedToComplete(script, history) || IsCompletion(e))
      && (Seen(script, longer) <==> Seen(script, history) || IsVisible(e))
  {
    var longer := history + [input];
    assert longer[..|longer|] == longer;
    assert forall n: nat :: n <= |history| ==> longer[..n] == history[..n];
    forall n: nat | 1 <= n <= |history| ensures EventAt(script, longer, n) == EventAt(script, history, n) {
    }
    assert EventAt(script, longer, |longer|) == script(longer);
    if AskedToComplete(script, history) {
      var n: nat :| 1 <= n <= |history| && IsCompletion(EventAt(script, history, n));
      assert IsCompletion(EventAt(script, longer, n));
    }
    if Seen(script, history) {
      var n: nat :| 1 <= n <= |history| && IsVisible(EventAt(script, history, n));
      assert IsVisible(EventAt(script, longer, n));
    }
  }

  /** What the last event of a run that ended was. */
  ghost predicate EndsAsSaid(script: Script, result: PumpResult) {
    var a := result.active;
    var last := script(a.history);
    match result
    case ReadyToCommit(_, false) => last.Some? && last.value.Completed? && AskedToComplete(script, a.history)
    case ReadyToCommit(_, true) =>
      last.Some? && last.value.Issued? && last.value.command == PassTrigger && !Seen(script, a.history)
    case EndedByScript(_) => last.Some? && last.value.Cancelled?
    case Yielded(_, event) => last == Some(event) && IsVisible(last)
    case Failed(_, LateTriggerPass) =>
      last.Some? && last.value.Issued? && last.value.command == PassTrigger && Seen(script, a.history)
    case Failed(_, CompletionRequired) => last.Some? && last.value.Completed? && !AskedToComplete(script, a.history)
    case Failed(_, Runtime) => true
    case Failed(_, Trace) => true
    case Failed(_, _) =>
      && last.Some? && !last.value.Completed? && !last.value.Cancelled? && !last.value.NodeStart? && !last.value.NodeComplete?
      && (last.value.Issued? ==> !last.value.command.Presentation? && last.value.command != PassTrigger && last.value.command != CompleteCommand)
  }

  /** What one exchange of a run that recalls rightly comes to. */
  ghost predicate GoesAsSaid(script: Script, reaction: Reaction) {
    match reaction
    case Proceed(next, _) => Recalls(script, next)
    case Stop(result) =>
      && EndsAsSaid(script, result)
      && (result.Yielded? ==> Recalls(script, result.active))
  }

  lemma ReactionIsAsSaid(env: Env, a: Active, sent: Active, event: Event)
    requires env.script(sent.history) == Some(event)
    requires sent.completionRequested == a.completionRequested && sent.visibleYielded == a.visibleYielded
    requires AskedToComplete(env.script, sent.history) <==> a.completionRequested || IsCompletion(Some(event))
    requires Seen(env.script, sent.history) <==> a.visibleYielded || IsVisible(Some(event))
    ensures GoesAsSaid(env.script, React(env, sent, event))
  {
  }

  lemma ExchangeIsAsSaid(env: Env, a: Active, input: Option<Input>)
    requires Recalls(env.script, a)
    ensures GoesAsSaid(env.script, Exchange(env, a, input))
  {
    var sent := Sent(a, input);
    OneExchangeMore(env.script, a.history, input);
    if env.script(sent.history).Some? {
      ExchangeReacts(env, a, input);
      ReactionIsAsSaid(env, a, sent, env.script(sent.history).value);
    }
  }

  /** Every exchange is as said, however long the run. */
  ghost predicate AllAsSaid(exchange: Exchanger, script: Script) {
    forall a, input :: Recalls(script, a) ==> GoesAsSaid(script, exchange(a, input))
  }

  lemma ExchangesAreAsSaid(env: Env)
    ensures AllAsSaid(Exchanging(env), env.script)
  {
    forall a, input | Recalls(env.script, a) ensures GoesAsSaid(env.script, Exchanging(env)(a, input)) {
      ExchangeIsAsSaid(env, a, input);
    }
  }

  lemma {:induction false} PumpIsAsSaid(exchange: Exchanger, script: Script, a: Active, input: Option<Input>)
    requires Advances(exchange) && AllAsSaid(exchange, script) && Recalls(script, a)
    ensures
      var r := Pump(exchange, a, input);
      EndsAsSaid(script, r) && (r.Yielded? ==> Recalls(script, r.active))
    decreases MAX_YIELD_EVENTS + 1 - |a.history|
  {
    assert AdvancesTo(a, exchange(a, input)) && GoesAsSaid(script, exchange(a, input));
    match exchange(a, input)
    case Stop(_) =>
    case Proceed(next, reply) => PumpIsAsSaid(exchange, script, next, reply);
  }

  lemma {:induction false} PlayIsAsSaid(
    exchange: Exchanger, script: Script, renewed: nat -> bool, player: Player, a: Active, input: Option<Input>, chosen: nat)
    requires Advances(exchange) && AllAsSaid(exchange, script) && Recalls(script, a)
    ensures
      var played := Play(exchange, renewed, player, a, input, chosen);
      played.Settled? ==> EndsAsSaid(script, played.result)
    decreases MAX_YIELD_EVENTS + 1 - |a.history|
  {
    PumpIsAsSaid(exchange, script, a, input);
    match Pump(exchange, a, input)
    case Yielded(next, event) =>
      PlayIsAsSaid(exchange, script, renewed, player, next, player(chosen, event), ChosenAfter(chosen, event));
    case _ =>
  }

  /**
   * A played run is completed just when its script ends after it asked for completion, and passed on just when
   * it says so before anything was seen; it ends cancelled on the host's word, fails for want of a completion
   * or for passing too late just when that is what happened, and otherwise neither ends nor has to show anything.
   */
  lemma RunsEndAsTheirScriptsSay(env: Env, player: Player, start: ScriptState)
    requires Paced(env.script)
    ensures
      var played := PlayFrom(env, player, start);
      played.Settled? ==> !played.result.Yielded? && EndsAsSaid(env.script, played.result)
  {
    ExchangingAdvances(env);
    ExchangesAreAsSaid(env);
    PlayIsAsSaid(Exchanging(env), env.script, env.renewed, player, Begin(start), None, 0);
    NeverSettlesOnAYield(Exchanging(env), env.renewed, player, Begin(start), None, 0);
  }

  lemma {:induction false} NeverSettlesOnAYield(
    exchange: Exchanger, renewed: nat -> bool, player: Player, a: Active, input: Option<Input>, chosen: nat)
    requires Advances(exchange)
    ensures
      var played := Play(exchange, renewed, player, a, input, chosen);
      played.Settled? ==> !played.result.Yielded?
    decreases MAX_YIELD_EVENTS + 1 - |a.history|
  {
    match Pump(exchange, a, input)
    case Yielded(next, event) =>
      NeverSettlesOnAYield(exchange, renewed, player, next, player(chosen, event), ChosenAfter(chosen, event));
    case _ =>
  }
}
