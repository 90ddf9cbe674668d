/** When a script starts, what it is handed, and who may renew, end or commit it (internal/store/script_events.go). */
module ScriptLeases {
  import opened Common
  import opened ScriptMessages
  import opened EventState
  import opened Ledger
  import opened LedgerTheorems
  import opened StagingTheorems
  import opened ScriptRuns
  import opened ScriptRunTheorems
  import Dispatch
  import Engine = ScriptEngine

  // ---------- Starting ----------

  /** A script is handed its character's yen, items, story and revision, in the trigger's area or the character's world. */
  lemma StartHandsOverTheCharacter(db: Db, q: StartRequest)
    requires StartRun(db, q).Ok?
    ensures q.character in db.characters && StartRun(db, q).value.db.characters == db.characters
    ensures
      var c, s := db.characters[q.character], StartRun(db, q).value.started.state;
      && SameHoldings(c, s) && s.revision == c.revision
      && (q.area != "" ==> s.scene == q.area) && (q.area == "" ==> s.scene == c.world)
  {
  }

  predicate Live(run: Run, now: int) {
    run.status == Active && run.leaseExpires > now
  }

  /** The account's character is there, and has no script running whose lease is live. */
  predicate MayStart(db: Db, q: StartRequest) {
    && q.character in db.characters
    && db.characters[q.character].account == q.account && !db.characters[q.character].deleted
    && (forall id :: id in db.runs && db.runs[id].character == q.character ==> !Live(db.runs[id], q.now))
  }

  /** A script starts if and only if its character may, one candidate is best, and the token is new. */
  lemma StartsIff(db: Db, q: StartRequest)
    ensures StartRun(db, q).Ok?
      <==>
        && MayStart(db, q) && Dispatch.Resolve(q.rows, q.excluded).Ok?
        && forall id :: id in db.runs ==> db.runs[id].token != q.token
  {
    var runs := ExpireLapsed(db.runs, q.character, q.now);
    assert forall id :: id in db.runs ==> id in runs && runs[id].token == db.runs[id].token && runs[id].character == db.runs[id].character;
    if q.character in db.characters && SlotTaken(runs, q.character, q.token) {
      var id :| id in runs && ((runs[id].character == q.character && runs[id].status == Active) || runs[id].token == q.token);
      assert id in db.runs;
    }
  }

  /** The new run is the character's only active one; of the others just the lapsed ones are over. */
  lemma StartTakesTheSlot(db: Db, q: StartRequest)
    requires StartRun(db, q).Ok? && RunsWellFormed(db)
    ensures
      var launch := StartRun(db, q).value;
      var d, id := launch.db, launch.started.run;
      && id !in db.runs && d.runs.Keys == db.runs.Keys + {id}
      && Dispatch.Resolve(q.rows, q.excluded).Ok?
      && launch.started.version == Dispatch.Resolve(q.rows, q.excluded).value.version
      && d.runs[id] == Run(
           q.character, launch.started.version, q.token, q.expires, db.characters[q.character].revision, Active, false)
      && (forall other :: other in db.runs ==>
            if db.runs[other].character == q.character && db.runs[other].status == Active
            then d.runs[other] == db.runs[other].(status := ExpiredRun)
            else d.runs[other] == db.runs[other])
  {
    StartsIff(db, q);
  }

  // ---------- Holding a lease ----------

  /** Whoever asks holds the token of a run that is active. */
  predicate IsHeld(db: Db, id: int, token: int) {
    id in db.runs && db.runs[id].status == Active && db.runs[id].token == token
  }

  /** Nothing but this run changes. */
  ghost predicate OnlyRun(db: Db, id: int, run: Run, d: Db) {
    d == db.(runs := db.runs[id := run])
  }

  lemma RenewsIff(db: Db, id: int, token: int, now: int, expires: int)
    ensures RenewRun(db, id, token, now, expires).Ok? <==> IsHeld(db, id, token) && Live(db.runs[id], now)
    ensures RenewRun(db, id, token, now, expires).Ok? ==>
      OnlyRun(db, id, db.runs[id].(leaseExpires := expires), RenewRun(db, id, token, now, expires).value)
  {
  }

  /** Ending a run asks for its token only, so that a lapsed run can still be ended. */
  lemma ClosesIff(db: Db, id: int, token: int, status: RunStatus)
    ensures CloseRun(db, id, token, status).Ok? <==> IsHeld(db, id, token)
    ensures CloseRun(db, id, token, status).Ok? ==>
      OnlyRun(db, id, db.runs[id].(status := status), CloseRun(db, id, token, status).value)
  {
  }

  /** In any reachable state a run commits if and only if it is held, live and at the revision, and its effects apply. */
  lemma CommitsIff(db: Db, items: Items, id: int, token: int, expected: int, effects: seq<Effect>, passed: bool, now: int)
    requires Inv(db)
    ensures FinishRun(db, items, id, token, expected, effects, passed, now).Ok?
      <==>
        && IsHeld(db, id, token) && Live(db.runs[id], now) && db.runs[id].stateRevision == expected
        && CommitEffects(db.characters[db.runs[id].character], items, id, effects).Ok?
    ensures FinishRun(db, items, id, token, expected, effects, passed, now).Ok? ==>
      var d := FinishRun(db, items, id, token, expected, effects, passed, now).value;
      && d.runs == db.runs[id := db.runs[id].(
           status := if passed then PassedRun else CompletedRun, completionRequested := !passed)]
      && d.characters.Keys == db.characters.Keys && d.nextRun == db.nextRun
      && (forall other :: other in db.characters && other != db.runs[id].character ==> d.characters[other] == db.characters[other])
  {
  }

  /** A run that has lost its lease to another run of its character never renews or commits again. */
  lemma DisplacedRunsAreOver(
    db: Db, items: Items, q: StartRequest, ops: seq<Op>, id: int, token: int, expected: int, effects: seq<Effect>, passed: bool,
    now: int, expires: int)
    requires Inv(db) && StartRun(db, q).Ok? && id in db.runs && db.runs[id].character == q.character
    ensures
      var later := AfterOps(StartRun(db, q).value.db, items, ops);
      && FinishRun(later, items, id, token, expected, effects, passed, now).Err?
      && RenewRun(later, id, token, now, expires).Err?
  {
    var launch := StartRun(db, q).value;
    StartTakesTheSlot(db, q);
    StartKeeps(db, q);
    HistoryKeeps(launch.db, items, ops);
    assert RunExtends(launch.db.runs[id], AfterOps(launch.db, items, ops).runs[id]);
  }

  // ---------- Committing alone ----------

  /** No transaction outside its script is about the character. */
  ghost predicate Untouched(ops: seq<Op>, character: int) {
    forall k :: 0 <= k < |ops| && ops[k].OutsideOp? ==> ops[k].character != character
  }

  lemma StepLeavesTheCharacter(db: Db, items: Items, op: Op, id: int)
    requires Inv(db) && id in db.runs && db.runs[id].status == Active
    requires op.OutsideOp? ==> op.character != db.runs[id].character
    requires id in Step(db, items, op).runs && Step(db, items, op).runs[id].status == Active
    ensures
      var character, d := db.runs[id].character, Step(db, items, op);
      character in d.characters && d.characters[character] == db.characters[character]
  {
    if !op.FinishOp? && !op.OutsideOp? {
      LeaseOpLeavesCharacters(db, items, op);
    }
  }

  /** While a run is active, nothing but outside transactions changes its character. */
  lemma {:induction false} ActiveRunsKeepTheirCharacter(db: Db, items: Items, ops: seq<Op>, id: int)
    requires Inv(db) && id in db.runs && db.runs[id].status == Active && Untouched(ops, db.runs[id].character)
    requires id in AfterOps(db, items, ops).runs && AfterOps(db, items, ops).runs[id].status == Active
    ensures
      var character, d := db.runs[id].character, AfterOps(db, items, ops);
      character in d.characters && d.characters[character] == db.characters[character]
  {
    if ops != [] {
      var front, op := ops[..|ops| - 1], ops[|ops| - 1];
      var mid := AfterOps(db, items, front);
      HistoryKeeps(db, items, front);
      StepKeeps(mid, items, op);
      assert RunExtends(db.runs[id], mid.runs[id]) && RunExtends(mid.runs[id], Step(mid, items, op).runs[id]);
      ActiveRunsKeepTheirCharacter(db, items, front, id);
      StepLeavesTheCharacter(mid, items, op, id);
    }
  }

  /** A commit without other transactions on the character leaves just what the script had staged. */
  lemma CommitAloneEqualsStaging(
    db: Db, items: Items, q: StartRequest, ops: seq<Op>, token: int, expected: int, effects: seq<Effect>, passed: bool, now: int)
    requires Inv(db) && StartRun(db, q).Ok? && Untouched(ops, q.character)
    requires
      var launch := StartRun(db, q).value;
      && FinishRun(AfterOps(launch.db, items, ops), items, launch.started.run, token, expected, effects, passed, now).Ok?
      && StageAll(launch.started.state, effects).Ok?
    ensures
      var launch := StartRun(db, q).value;
      var final := FinishRun(AfterOps(launch.db, items, ops), items, launch.started.run, token, expected, effects, passed, now).value;
      q.character in final.characters
      && SameHoldings(final.characters[q.character], StageAll(launch.started.state, effects).value)
  {
    var launch := StartRun(db, q).value;
    var id, later := launch.started.run, AfterOps(launch.db, items, ops);
    StartHandsOverTheCharacter(db, q);
    StartTakesTheSlot(db, q);
    StartKeeps(db, q);
    HistoryKeeps(launch.db, items, ops);
    assert IsHeld(later, id, token);
    assert RunExtends(launch.db.runs[id], later.runs[id]);
    ActiveRunsKeepTheirCharacter(launch.db, items, ops, id);
    CommitRefinesStaging(db, items, q, ops, token, expected, effects, passed, now);
    EqualMovesFromEqualHoldings(
      later.characters[q.character],
      FinishRun(later, items, id, token, expected, effects, passed, now).value.characters[q.character],
      launch.started.state, StageAll(launch.started.state, effects).value);
  }

  lemma EqualMovesFromEqualHoldings(c0: Character, c: Character, s0: ScriptState, s: ScriptState)
    requires MovedAlike(c0, c, s0, s) && SameHoldings(c0, s0)
    ensures SameHoldings(c, s)
  {
    forall item ensures Quantity(c.inventory, item) == Quantity(s.inventory, item) {
      assert Quantity(c.inventory, item) - Quantity(c0.inventory, item) == Quantity(s.inventory, item) - Quantity(s0.inventory, item);
      assert Quantity(c0.inventory, item) == Quantity(s0.inventory, item);
    }
  }

  /** So does a played run: what its script was told last is what its character has. */
  lemma PlayedAloneCommitsItsState(
    db: Db, items: Items, q: StartRequest, ops: seq<Op>, env: Engine.Env, player: Engine.Player, token: int, now: int)
    requires Inv(db) && StartRun(db, q).Ok? && Engine.Paced(env.script) && Untouched(ops, q.character)
    ensures
      var launch := StartRun(db, q).value;
      var played := Engine.PlayFrom(env, player, launch.started.state);
      played.Settled? && played.result.ReadyToCommit? ==>
        var a := played.result.active;
        var committed := FinishRun(
          AfterOps(launch.db, items, ops), items, launch.started.run, token, launch.started.state.revision, a.effects,
          played.result.passed, now);
        committed.Ok? ==> q.character in committed.value.characters && SameHoldings(committed.value.characters[q.character], a.state)
  {
    var launch := StartRun(db, q).value;
    Engine.PlayStages(env, player, launch.started.state);
    var played := Engine.PlayFrom(env, player, launch.started.state);
    if played.Settled? && played.result.ReadyToCommit? {
      var a := played.result.active;
      if FinishRun(
        AfterOps(launch.db, items, ops), items, launch.started.run, token, launch.started.state.revision, a.effects,
        played.result.passed, now).Ok?
      {
        CommitAloneEqualsStaging(
          db, items, q, ops, token, launch.started.state.revision, a.effects, played.result.passed, now);
      }
    }
  }
}
