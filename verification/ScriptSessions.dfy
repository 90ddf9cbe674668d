/** The events that the engine's loop reads are those of a session and its host in lockstep. */
module ScriptSessions {
  import opened Common
  import opened ScriptMessages
  import opened EventState
  import opened Ledger
  import opened StagingTheorems
  import opened RuntimeProtocol
  import Engine = ScriptEngine
  import ScriptRuns
  import ScriptRunTheorems

  /** The inputs that the session accepted in a history, one for each exchange. */
  ghost function Inputs(registry: Registry, moves: seq<Move>): (inputs: seq<Option<Input>>) {
    if moves == [] then []
    else
      var front, move := Inputs(registry, moves[..|moves| - 1]), moves[|moves| - 1];
      var before := AfterMoves(registry, moves[..|moves| - 1]);
      if Enabled(registry, before, move) && move.Sends? && AcceptInput(before.session, move.input).Ok? then front + [move.input]
      else front
  }

  predicate Ends(event: Event) {
    event.Completed? || event.Cancelled?
  }

  /** Every exchange was answered by one event, but the one still waiting, or the one whose event was refused. */
  ghost predicate Counted(s: System, exchanges: nat) {
    && |s.seen| <= exchanges <= |s.seen| + 1
    && (s.receiving ==> exchanges == |s.seen| + 1)
    && (!s.receiving && !s.session.terminal ==> exchanges == |s.seen|)
    && (s.session.terminal && exchanges == |s.seen| ==> s.seen != [] && Ends(s.seen[|s.seen| - 1]))
  }

  lemma MovesCount(registry: Registry, s: System, move: Move, exchanges: nat)
    requires Counted(s, exchanges) && (s.session.terminal ==> !s.receiving) && Enabled(registry, s, move)
    ensures Counted(
      Next(registry, s, move), if move.Sends? && AcceptInput(s.session, move.input).Ok? then exchanges + 1 else exchanges)
  {
  }

  lemma {:induction false} ExchangesAreCounted(registry: Registry, moves: seq<Move>)
    requires registry.Valid()
    ensures Counted(AfterMoves(registry, moves), |Inputs(registry, moves)|)
  {
    if moves != [] {
      var front, move := moves[..|moves| - 1], moves[|moves| - 1];
      ExchangesAreCounted(registry, front);
      EveryHistoryIsInLockstep(registry, front);
      if Enabled(registry, AfterMoves(registry, front), move) {
        MovesCount(registry, AfterMoves(registry, front), move, |Inputs(registry, front)|);
      }
    }
  }

  /** How the host's steps, the sends and the reads went, for each sequence of inputs. */
  type Course = seq<Option<Input>> -> seq<Move>

  /** The exchanges sent these inputs, and each of them got its event. */
  ghost predicate Answered(registry: Registry, moves: seq<Move>, history: seq<Option<Input>>) {
    var s := AfterMoves(registry, moves);
    history != [] && Inputs(registry, moves) == history && |s.seen| == |history|
  }

  /** What the last exchange returns, whatever course the host took. */
  ghost function Reading(registry: Registry, course: Course): (script: Engine.Script) {
    history =>
      if Answered(registry, course(history), history) then Some(AfterMoves(registry, course(history)).seen[|history| - 1]) else None
  }

  /** What a session reads from its host is a paced script. */
  lemma ReadingIsPaced(registry: Registry, course: Course)
    requires registry.Valid()
    ensures Engine.Paced(Reading(registry, course))
  {
    var script := Reading(registry, course);
    forall history | script(history).Some?
      ensures script(history).value.sequence == |history| <= Engine.MAX_YIELD_EVENTS
    {
      EventsAreNumberedAndBounded(registry, course(history));
    }
  }

  lemma OpenWhileGoingOn(registry: Registry, moves: seq<Move>, history: seq<Option<Input>>)
    requires registry.Valid() && Answered(registry, moves, history)
    ensures
      var s := AfterMoves(registry, moves);
      var event := s.seen[|history| - 1];
      !Ends(event) ==>
        !s.session.terminal && !s.receiving && (event.Asked? ==> RegisteredKind(event.query).Some?)
  {
    ExchangesAreCounted(registry, moves);
    EveryHistoryIsInLockstep(registry, moves);
  }

  /** Every input the loop makes up by itself is accepted by the session and by the host it was read from. */
  lemma OwnRepliesAreAccepted(registry: Registry, course: Course, env: Engine.Env, a: Engine.Active)
    requires registry.Valid() && env.script == Reading(registry, course) && env.script(a.history).Some?
    requires Engine.React(env, a, env.script(a.history).value).Proceed?
    ensures
      var s := AfterMoves(registry, course(a.history));
      var reply := Engine.React(env, a, env.script(a.history).value).input;
      AcceptInput(s.session, reply).Ok? && HostAccepts(s.host, reply)
  {
    var event := env.script(a.history).value;
    OpenWhileGoingOn(registry, course(a.history), a.history);
    Engine.RepliesAreProtocolAnswers(env, a, event);
    AnswersAreAcceptedOnBothSides(registry, course(a.history), Engine.React(env, a, event).input);
  }

  /** From the host's steps to the rows: what a run of any course commits is what its script saw. */
  lemma RuntimeRunCommitsWhatTheScriptSaw(
    registry: Registry, course: Course, db: ScriptRuns.Db, items: Items, q: ScriptRuns.StartRequest, ops: seq<ScriptRuns.Op>,
    env: Engine.Env, player: Engine.Player, token: int, now: int)
    requires registry.Valid() && env.script == Reading(registry, course)
    requires ScriptRunTheorems.Inv(db) && ScriptRuns.StartRun(db, q).Ok?
    ensures Engine.Paced(env.script)
    ensures
      var launch := ScriptRuns.StartRun(db, q).value;
      var later := ScriptRuns.AfterOps(launch.db, items, ops);
      var played := Engine.PlayFrom(env, player, launch.started.state);
      played.Settled? && played.result.ReadyToCommit? ==>
        var a := played.result.active;
        var committed := ScriptRuns.FinishRun(
          later, items, launch.started.run, token, launch.started.state.revision, a.effects, played.result.passed, now);
        && committed != Err(RevisionConflict)
        && (committed.Ok? ==>
              && q.character in later.characters && q.character in committed.value.characters
              && MovedAlike(later.characters[q.character], committed.value.characters[q.character], launch.started.state, a.state))
  {
    ReadingIsPaced(registry, course);
    Engine.PlayedRunCommitsWhatTheScriptSaw(db, items, q, ops, env, player, token, now);
  }
}
