/** Safety of script runs over every interleaving of runs and outside transactions. */
module ScriptRunTheorems {
  import opened Common
  import opened ScriptMessages
  import opened EventState
  import opened Ledger
  import opened LedgerTheorems
  import opened StagingTheorems
  import opened ScriptRuns

  predicate Committed(status: RunStatus) {
    status in {CompletedRun, PassedRun}
  }

  /** Run rows point at characters and identities grow. */
  ghost predicate RunsWellFormed(db: Db) {
    forall id :: id in db.runs ==> id < db.nextRun && db.runs[id].character in db.characters
  }

  ghost predicate OneActivePerCharacter(db: Db) {
    forall id, other | id in db.runs && other in db.runs && id != other ::
      !(db.runs[id].status == Active && db.runs[other].status == Active
        && db.runs[id].character == db.runs[other].character)
  }

  /** No commit has happened behind the back of an active run. */
  ghost predicate ActiveRunsAreCurrent(db: Db) {
    forall id :: id in db.runs && db.runs[id].status == Active && db.runs[id].character in db.characters
      ==> db.characters[db.runs[id].character].revision == db.runs[id].stateRevision
  }

  ghost predicate AppliedByCommits(db: Db, character: int)
    requires character in db.characters
  {
    var applied := db.characters[character].applied;
    forall i :: 0 <= i < |applied| ==>
      applied[i].run in db.runs && db.runs[applied[i].run].character == character && Committed(db.runs[applied[i].run].status)
  }

  ghost predicate Inv(db: Db) {
    && RunsWellFormed(db) && OneActivePerCharacter(db) && ActiveRunsAreCurrent(db)
    && (forall character :: character in db.characters ==> AppliedByCommits(db, character))
  }

  /** What a run keeps; once terminal, everything. */
  predicate RunExtends(run: Run, next: Run) {
    && run.character == next.character && run.version == next.version && run.token == next.token
    && run.stateRevision == next.stateRevision
    && (run.status != Active ==> run == next)
  }

  ghost predicate DbExtends(db: Db, d: Db) {
    && db.nextRun <= d.nextRun
    && db.characters.Keys == d.characters.Keys
    && (forall character :: character in db.characters ==> Extends(db.characters[character], d.characters[character]))
    && (forall id :: id in db.runs ==> id in d.runs && RunExtends(db.runs[id], d.runs[id]))
  }

  /** Before the first run, nothing has been applied. */
  lemma NoRunsAreSafe(db: Db)
    requires db.runs == map[] && forall character :: character in db.characters ==> db.characters[character].applied == []
    ensures Inv(db)
  {
  }

  // ---------- One step ----------

  lemma CommitExtends(c: Character, items: Items, id: int, effects: seq<Effect>)
    requires CommitEffects(c, items, id, effects).Ok?
    ensures var d := CommitEffects(c, items, id, effects).value;
      && Extends(c, d) && d.applied == c.applied + Tagged(id, effects) && Ascending(effects)
      && d.revision == (if effects == [] then c.revision else c.revision + 1)
      && SameOrigin(c, d) && (Indexed(c) ==> Indexed(d)) && (InRange(c, items) ==> InRange(d, items))
  {
    EffectsKeep(c, items, id, effects);
  }

  lemma ExpiryKeeps(db: Db, character: int, now: int)
    requires Inv(db)
    ensures var d := db.(runs := ExpireLapsed(db.runs, character, now)); Inv(d) && DbExtends(db, d)
  {
    var d := db.(runs := ExpireLapsed(db.runs, character, now));
    forall other | other in d.characters ensures AppliedByCommits(d, other) {
      assert AppliedByCommits(db, other);
    }
  }

  lemma InsertKeeps(db: Db, run: Run)
    requires Inv(db) && run.status == Active && run.character in db.characters
    requires !SlotTaken(db.runs, run.character, run.token)
    requires run.stateRevision == db.characters[run.character].revision
    ensures var d := db.(runs := db.runs[db.nextRun := run], nextRun := db.nextRun + 1); Inv(d) && DbExtends(db, d)
  {
    var d := db.(runs := db.runs[db.nextRun := run], nextRun := db.nextRun + 1);
    assert db.nextRun !in db.runs;
    forall other | other in d.characters ensures AppliedByCommits(d, other) {
      assert AppliedByCommits(db, other);
    }
  }

  lemma StartKeeps(db: Db, q: StartRequest)
    requires Inv(db) && StartRun(db, q).Ok?
    ensures Inv(StartRun(db, q).value.db) && DbExtends(db, StartRun(db, q).value.db)
  {
    var d := StartRun(db, q).value.db;
    ExpiryKeeps(db, q.character, q.now);
    var expired := db.(runs := ExpireLapsed(db.runs, q.character, q.now));
    InsertKeeps(expired, d.runs[db.nextRun]);
    DbExtendsTransitive(db, expired, d);
  }

  lemma RunUpdateKeeps(db: Db, id: int, run: Run)
    requires Inv(db) && id in db.runs && db.runs[id].status == Active && RunExtends(db.runs[id], run)
    ensures Inv(db.(runs := db.runs[id := run])) && DbExtends(db, db.(runs := db.runs[id := run]))
  {
    var d := db.(runs := db.runs[id := run]);
    forall character | character in d.characters ensures AppliedByCommits(d, character) {
      assert AppliedByCommits(db, character);
    }
  }

  lemma FinishKeepsApplied(db: Db, items: Items, id: int, token: int, expected: int, effects: seq<Effect>, passed: bool,
                           now: int, character: int)
    requires Inv(db) && FinishRun(db, items, id, token, expected, effects, passed, now).Ok?
    requires character in db.characters
    ensures var d := FinishRun(db, items, id, token, expected, effects, passed, now).value;
      character in d.characters && AppliedByCommits(d, character)
  {
    var d := FinishRun(db, items, id, token, expected, effects, passed, now).value;
    assert AppliedByCommits(db, character);
    if character == db.runs[id].character {
      var before, applied := db.characters[character].applied, d.characters[character].applied;
      CommitExtends(db.characters[character], items, id, effects);
      forall i | 0 <= i < |applied|
        ensures applied[i].run in d.runs && d.runs[applied[i].run].character == character
        ensures Committed(d.runs[applied[i].run].status)
      {
        if i < |before| {
          assert applied[i] == before[i];
        } else {
          assert applied[i].run == id;
        }
      }
    }
  }

  lemma FinishExtends(db: Db, items: Items, id: int, token: int, expected: int, effects: seq<Effect>, passed: bool, now: int)
    requires Inv(db) && FinishRun(db, items, id, token, expected, effects, passed, now).Ok?
    ensures DbExtends(db, FinishRun(db, items, id, token, expected, effects, passed, now).value)
  {
    CommitExtends(db.characters[db.runs[id].character], items, id, effects);
  }

  lemma FinishKeeps(db: Db, items: Items, id: int, token: int, expected: int, effects: seq<Effect>, passed: bool, now: int)
    requires Inv(db) && FinishRun(db, items, id, token, expected, effects, passed, now).Ok?
    ensures Inv(FinishRun(db, items, id, token, expected, effects, passed, now).value)
  {
    var d := FinishRun(db, items, id, token, expected, effects, passed, now).value;
    forall character | character in d.characters ensures AppliedByCommits(d, character) {
      FinishKeepsApplied(db, items, id, token, expected, effects, passed, now, character);
    }
  }

  lemma TransactKeeps(db: Db, items: Items, character: int, t: OutsideTransaction)
    requires Inv(db) && Transact(db, items, character, t).Ok?
    ensures Inv(Transact(db, items, character, t).value) && DbExtends(db, Transact(db, items, character, t).value)
  {
    var d := Transact(db, items, character, t).value;
    TransactionExtends(db.characters[character], items, t);
    OutsideLeavesTheStory(db.characters[character], items, t);
    forall other | other in d.characters ensures AppliedByCommits(d, other) {
      assert AppliedByCommits(db, other);
    }
  }

  lemma OutsideLeavesTheStory(c: Character, items: Items, t: OutsideTransaction)
    requires Perform(c, items, t).Ok?
    ensures var d := Perform(c, items, t).value; d.revision == c.revision && d.applied == c.applied && d.story == c.story
  {
  }

  lemma LeaseOpKeeps(db: Db, items: Items, op: Op)
    requires Inv(db) && (op.RenewOp? || op.CancelOp? || op.FailOp?)
    ensures Inv(Step(db, items, op)) && DbExtends(db, Step(db, items, op))
  {
    match op
    case RenewOp(id, token, now, expires) =>
      if RenewRun(db, id, token, now, expires).Ok? {
        RunUpdateKeeps(db, id, db.runs[id].(leaseExpires := expires));
      }
    case CancelOp(id, token) =>
      if Holds(db, id, token) { RunUpdateKeeps(db, id, db.runs[id].(status := CancelledRun)); }
    case FailOp(id, token) =>
      if Holds(db, id, token) { RunUpdateKeeps(db, id, db.runs[id].(status := FailedRun)); }
  }

  lemma StepKeeps(db: Db, items: Items, op: Op)
    requires Inv(db)
    ensures Inv(Step(db, items, op)) && DbExtends(db, Step(db, items, op))
  {
    match op
    case StartOp(q) => if StartRun(db, q).Ok? { StartKeeps(db, q); }
    case FinishOp(id, token, expected, effects, passed, now) =>
      if FinishRun(db, items, id, token, expected, effects, passed, now).Ok? {
        FinishKeeps(db, items, id, token, expected, effects, passed, now);
        FinishExtends(db, items, id, token, expected, effects, passed, now);
      }
    case OutsideOp(character, t) =>
      if Transact(db, items, character, t).Ok? { TransactKeeps(db, items, character, t); }
    case _ => LeaseOpKeeps(db, items, op);
  }

  lemma DbExtendsTransitive(a: Db, b: Db, c: Db)
    requires DbExtends(a, b) && DbExtends(b, c)
    ensures DbExtends(a, c)
  {
    forall character | character in a.characters ensures Extends(a.characters[character], c.characters[character]) {
      assert Extends(a.characters[character], b.characters[character]);
      assert Extends(b.characters[character], c.characters[character]);
    }
  }

  // ---------- Every history ----------

  /**
   * Lifecycle safety: over any interleaving a character has at most one active run, a terminal
   * run never changes again, nothing recorded is lost, and a story is unchanged while its
   * revision is.
   */
  lemma {:induction false} HistoryKeeps(db: Db, items: Items, ops: seq<Op>)
    requires Inv(db)
    ensures Inv(AfterOps(db, items, ops)) && DbExtends(db, AfterOps(db, items, ops))
  {
    if ops != [] {
      var mid := AfterOps(db, items, ops[..|ops| - 1]);
      HistoryKeeps(db, items, ops[..|ops| - 1]);
      StepKeeps(mid, items, ops[|ops| - 1]);
      DbExtendsTransitive(db, mid, AfterOps(db, items, ops));
    }
  }

  /** With the active-run index in place the revision check can never fire. */
  lemma RevisionConflictIsUnreachable(db: Db, items: Items, ops: seq<Op>, id: int, token: int, expected: int,
                                      effects: seq<Effect>, passed: bool, now: int)
    requires Inv(db)
    ensures FinishRun(AfterOps(db, items, ops), items, id, token, expected, effects, passed, now) != Err(RevisionConflict)
  {
    HistoryKeeps(db, items, ops);
    var d := AfterOps(db, items, ops);
    if Holds(d, id, token) && d.runs[id].character in d.characters && d.runs[id].stateRevision == expected {
      assert d.characters[d.runs[id].character].revision == expected;
      if CommitEffects(d.characters[d.runs[id].character], items, id, effects).Err? {
        CommitErrors(d.characters[d.runs[id].character], items, id, effects);
      }
    }
  }

  lemma EffectErrors(c: Character, items: Items, id: int, effect: Effect)
    ensures ApplyEffect(c, items, id, effect) != Err(RevisionConflict)
  {
  }

  lemma {:induction false} CommitErrors(c: Character, items: Items, id: int, effects: seq<Effect>)
    requires ApplyAll(c, items, id, effects).Err?
    ensures ApplyAll(c, items, id, effects).error != RevisionConflict
  {
    var front := effects[..|effects| - 1];
    if ApplyAll(c, items, id, front).Err? {
      CommitErrors(c, items, id, front);
    } else {
      EffectErrors(ApplyAll(c, items, id, front).value, items, id, effects[|effects| - 1]);
    }
  }

  /**
   * Commit refines staging. A run that started, ran while anything else happened, and finished
   * leaves the story it had staged, and moves yen and every stack by the staged amounts.
   */
  lemma CommitRefinesStaging(db: Db, items: Items, q: StartRequest, ops: seq<Op>, token: int, expected: int,
                             effects: seq<Effect>, passed: bool, now: int)
    requires Inv(db) && StartRun(db, q).Ok?
    requires var launch := StartRun(db, q).value; var later := AfterOps(launch.db, items, ops);
      && FinishRun(later, items, launch.started.run, token, expected, effects, passed, now).Ok?
      && StageAll(launch.started.state, effects).Ok?
    ensures var launch := StartRun(db, q).value; var later := AfterOps(launch.db, items, ops);
      var final := FinishRun(later, items, launch.started.run, token, expected, effects, passed, now).value;
      var staged := StageAll(launch.started.state, effects).value;
      && q.character in later.characters && q.character in final.characters
      && MovedAlike(later.characters[q.character], final.characters[q.character], launch.started.state, staged)
  {
    var launch := StartRun(db, q).value;
    var later := AfterOps(launch.db, items, ops);
    StartKeeps(db, q);
    HistoryKeeps(launch.db, items, ops);
    var c := later.characters[q.character];
    assert RunExtends(launch.db.runs[launch.started.run], later.runs[launch.started.run]);
    assert Extends(launch.db.characters[q.character], c);
    assert c.story == launch.started.state.story;
    CommitMovesAsStaged(c, items, launch.started.run, effects, launch.started.state);
  }

  // ---------- Effects are applied exactly once, and nothing else makes the story ----------

  /** The effects of run `id` among the committed rows. */
  ghost function EffectsOf(applied: seq<AppliedEffect>, id: int): (effects: seq<Effect>) {
    if applied == [] then []
    else
      var last := applied[|applied| - 1];
      EffectsOf(applied[..|applied| - 1], id) + if last.run == id then [last.effect] else []
  }

  lemma EffectsOfOneMore(applied: seq<AppliedEffect>, row: AppliedEffect, id: int)
    ensures EffectsOf(applied + [row], id) == EffectsOf(applied, id) + if row.run == id then [row.effect] else []
  {
    var all := applied + [row];
    assert all[..|all| - 1] == applied && all[|all| - 1] == row;
  }

  lemma TaggedOneMore(applied: seq<AppliedEffect>, source: int, effects: seq<Effect>)
    requires effects != []
    ensures
      var front, last := effects[..|effects| - 1], effects[|effects| - 1];
      applied + Tagged(source, effects) == (applied + Tagged(source, front)) + [AppliedEffect(source, last)]
  {
    var front, last := effects[..|effects| - 1], effects[|effects| - 1];
    assert Tagged(source, effects) == Tagged(source, front) + [AppliedEffect(source, last)];
  }

  lemma {:induction false} EffectsOfTagged(applied: seq<AppliedEffect>, id: int, source: int, effects: seq<Effect>)
    ensures EffectsOf(applied + Tagged(source, effects), id) == EffectsOf(applied, id) + if source == id then effects else []
  {
    if effects == [] {
      assert applied + Tagged(source, effects) == applied;
    } else {
      var front, last := effects[..|effects| - 1], effects[|effects| - 1];
      EffectsOfTagged(applied, id, source, front);
      TaggedOneMore(applied, source, effects);
      EffectsOfOneMore(applied + Tagged(source, front), AppliedEffect(source, last), id);
      if source == id {
        assert EffectsOf(applied, id) + effects == (EffectsOf(applied, id) + front) + [last];
      }
    }
  }

  lemma {:induction false} NoEffectsOfUncommitted(db: Db, character: int, id: int, n: nat)
    requires character in db.characters && AppliedByCommits(db, character)
    requires id in db.runs ==> !Committed(db.runs[id].status) || db.runs[id].character != character
    requires n <= |db.characters[character].applied|
    ensures EffectsOf(db.characters[character].applied[..n], id) == []
  {
    var applied := db.characters[character].applied;
    if n > 0 {
      NoEffectsOfUncommitted(db, character, id, n - 1);
      assert applied[..n][..n - 1] == applied[..n - 1];
    }
  }

  ghost predicate WrittenOnce(db: Db, d: Db, op: Op, character: int, id: int)
    requires character in db.characters && character in d.characters
  {
    var before, now := EffectsOf(db.characters[character].applied, id), EffectsOf(d.characters[character].applied, id);
    || now == before
    || (op.FinishOp? && op.id == id && id in db.runs && db.runs[id].status == Active && before == [] && now == op.effects)
  }

  lemma FinishWritesEffectsOnce(db: Db, items: Items, op: Op, character: int, id: int)
    requires Inv(db) && character in db.characters && op.FinishOp?
    requires character in Step(db, items, op).characters
    ensures WrittenOnce(db, Step(db, items, op), op, character, id)
  {
    var c := db.characters[character];
    if FinishRun(db, items, op.id, op.token, op.expected, op.effects, op.passed, op.now).Ok?
      && db.runs[op.id].character == character
    {
      CommitExtends(c, items, op.id, op.effects);
      EffectsOfTagged(c.applied, id, op.id, op.effects);
      assert c.applied[..|c.applied|] == c.applied;
      NoEffectsOfUncommitted(db, character, op.id, |c.applied|);
    }
  }

  /** The effects of a run are written in one piece by the commit that ends it. */
  lemma StepWritesEffectsOnce(db: Db, items: Items, op: Op, character: int, id: int)
    requires Inv(db) && character in db.characters
    ensures character in Step(db, items, op).characters
    ensures WrittenOnce(db, Step(db, items, op), op, character, id)
  {
    StepKeeps(db, items, op);
    match op
    case FinishOp(_, _, _, _, _, _) => FinishWritesEffectsOnce(db, items, op, character, id);
    case OutsideOp(other, t) =>
      if Transact(db, items, other, t).Ok? { OutsideLeavesTheStory(db.characters[other], items, t); }
    case _ =>
  }

  /** A committed run's effects stay exactly those of its commit, whatever happens later. */
  lemma {:induction false} CommittedEffectsAreFinal(db: Db, items: Items, ops: seq<Op>, character: int, id: int)
    requires Inv(db) && character in db.characters && id in db.runs && db.runs[id].status != Active
    ensures character in AfterOps(db, items, ops).characters
    ensures EffectsOf(AfterOps(db, items, ops).characters[character].applied, id)
      == EffectsOf(db.characters[character].applied, id)
    ensures !Committed(db.runs[id].status) ==> EffectsOf(AfterOps(db, items, ops).characters[character].applied, id) == []
  {
    if ops == [] {
      var applied := db.characters[character].applied;
      assert applied[..|applied|] == applied;
      if !Committed(db.runs[id].status) { NoEffectsOfUncommitted(db, character, id, |applied|); }
    } else {
      var front := ops[..|ops| - 1];
      CommittedEffectsAreFinal(db, items, front, character, id);
      HistoryKeeps(db, items, front);
      assert RunExtends(db.runs[id], AfterOps(db, items, front).runs[id]);
      StepWritesEffectsOnce(AfterOps(db, items, front), items, ops[|ops| - 1], character, id);
    }
  }

  ghost function TellEffect(story: Story, effect: Effect): (s: Story) {
    if !TouchesStory(effect.command) then story
    else
      match Stage(ScriptState(0, "", 0, story, map[]), effect.command, effect.arguments)
      case Ok(next) => next.story
      case Err(_) => story
  }

  /** The story that a list of committed effects tells. */
  ghost function Retell(story: Story, applied: seq<AppliedEffect>): (s: Story) {
    if applied == [] then story
    else TellEffect(Retell(story, applied[..|applied| - 1]), applied[|applied| - 1].effect)
  }

  lemma EffectTellsTheStory(c: Character, items: Items, id: int, effect: Effect)
    requires ApplyEffect(c, items, id, effect).Ok?
    ensures ApplyEffect(c, items, id, effect).value.story == TellEffect(c.story, effect)
  {
    if TouchesStory(effect.command) {
      var s := ScriptState(0, "", 0, c.story, map[]);
      StaticArgumentsAreStagedArguments(effect.arguments, 0);
      StaticArgumentsAreStagedArguments(effect.arguments, 1);
      StoryMovesAsStaged(c, items, id, effect, s);
    } else {
      if effect.command in {GrantYen, SpendYen} {
        YenEffectShape(c, items, id, effect);
      } else {
        ItemEffectShape(c, items, id, effect);
      }
    }
  }

  lemma {:induction false} CommitTellsTheStory(c: Character, items: Items, id: int, effects: seq<Effect>)
    requires ApplyAll(c, items, id, effects).Ok?
    ensures ApplyAll(c, items, id, effects).value.story == Retell(c.story, Tagged(id, effects))
  {
    if effects != [] {
      var front, last := effects[..|effects| - 1], effects[|effects| - 1];
      CommitTellsTheStory(c, items, id, front);
      EffectTellsTheStory(ApplyAll(c, items, id, front).value, items, id, last);
      var rows := Tagged(id, effects);
      assert rows[..|rows| - 1] == Tagged(id, front);
    }
  }

  lemma {:induction false} RetellAppend(story: Story, first: seq<AppliedEffect>, second: seq<AppliedEffect>)
    ensures Retell(story, first + second) == Retell(Retell(story, first), second)
  {
    if second == [] {
      assert first + second == first;
    } else {
      var all := first + second;
      assert all[..|all| - 1] == first + second[..|second| - 1];
      RetellAppend(story, first, second[..|second| - 1]);
    }
  }

  /** Only commits and outside transactions change a character. */
  lemma LeaseOpLeavesCharacters(db: Db, items: Items, op: Op)
    requires !op.FinishOp? && !op.OutsideOp?
    ensures Step(db, items, op).characters == db.characters
  {
  }

  lemma StepTellsTheStory(db: Db, items: Items, op: Op, character: int, origin: Story)
    requires Inv(db) && character in db.characters
    requires db.characters[character].story == Retell(origin, db.characters[character].applied)
    ensures var d := Step(db, items, op);
      character in d.characters && d.characters[character].story == Retell(origin, d.characters[character].applied)
  {
    var c := db.characters[character];
    match op
    case FinishOp(id, token, expected, effects, passed, now) =>
      if FinishRun(db, items, id, token, expected, effects, passed, now).Ok? && db.runs[id].character == character {
        CommitExtends(c, items, id, effects);
        CommitTellsTheStory(c, items, id, effects);
        RetellAppend(origin, c.applied, Tagged(id, effects));
      }
    case OutsideOp(other, t) =>
      if Transact(db, items, other, t).Ok? { OutsideLeavesTheStory(db.characters[other], items, t); }
    case _ => LeaseOpLeavesCharacters(db, items, op);
  }

  /**
   * The durable story is always the retelling of the committed effects: runs that expired,
   * failed or were cancelled contribute nothing (they have no rows), and a commit is all or nothing.
   */
  lemma {:induction false} StoryIsItsCommits(db: Db, items: Items, ops: seq<Op>, character: int, origin: Story)
    requires Inv(db) && character in db.characters
    requires db.characters[character].story == Retell(origin, db.characters[character].applied)
    ensures character in AfterOps(db, items, ops).characters
    ensures var d := AfterOps(db, items, ops).characters[character]; d.story == Retell(origin, d.applied)
  {
    if ops != [] {
      var front := ops[..|ops| - 1];
      StoryIsItsCommits(db, items, front, character, origin);
      HistoryKeeps(db, items, front);
      StepTellsTheStory(AfterOps(db, items, front), items, ops[|ops| - 1], character, origin);
    }
  }

  /** The ledger laws of a single character hold across the whole database. */
  lemma StepKeepsLedgers(db: Db, items: Items, op: Op, character: int)
    requires ValidItems(items) && character in db.characters
    ensures character in Step(db, items, op).characters
    ensures var c, d := db.characters[character], Step(db, items, op).characters[character];
      SameOrigin(c, d) && (Indexed(c) ==> Indexed(d)) && (InRange(c, items) ==> InRange(d, items))
  {
    match op
    case FinishOp(id, token, expected, effects, passed, now) =>
      if FinishRun(db, items, id, token, expected, effects, passed, now).Ok? {
        CommitExtends(db.characters[db.runs[id].character], items, id, effects);
      }
    case OutsideOp(other, t) =>
      if Transact(db, items, other, t).Ok? { AfterKeeps(db.characters[other], items, t); }
    case _ => LeaseOpLeavesCharacters(db, items, op);
  }
}
