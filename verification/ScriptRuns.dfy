/** The life of a published script run: leases, revisions and atomic commits (internal/store/script_events.go). */
module ScriptRuns {
  import opened Common
  import opened ScriptMessages
  import opened EventState
  import opened Ledger
  import Dispatch

  datatype RunStatus = Active | CompletedRun | PassedRun | CancelledRun | FailedRun | ExpiredRun

  datatype Run = Run(
    character: int, version: int, token: int, leaseExpires: int, stateRevision: int,
    status: RunStatus, completionRequested: bool)

  datatype Db = Db(characters: map<int, Character>, runs: map<int, Run>, nextRun: int)

  datatype StartRequest = StartRequest(
    account: int, character: int, area: string, rows: seq<Dispatch.Candidate>, excluded: set<int>,
    now: int, expires: int, token: int)

  datatype Started = Started(run: int, version: int, state: ScriptState)

  datatype Launch = Launch(db: Db, started: Started)

  /** Runs of `character` whose lease has lapsed give up the active slot. */
  function ExpireLapsed(runs: map<int, Run>, character: int, now: int): (r: map<int, Run>) {
    map id | id in runs ::
      if runs[id].character == character && runs[id].status == Active && runs[id].leaseExpires <= now
      then runs[id].(status := ExpiredRun) else runs[id]
  }

  /** The unique indexes: one active run a character, and no lease token twice. */
  predicate SlotTaken(runs: map<int, Run>, character: int, token: int) {
    exists id :: id in runs && ((runs[id].character == character && runs[id].status == Active) || runs[id].token == token)
  }

  function StartRun(db: Db, q: StartRequest): (r: Result<Launch, StoreError>) {
    if q.character !in db.characters || db.characters[q.character].account != q.account || db.characters[q.character].deleted
    then Err(NotFound)
    else
      var row := db.characters[q.character];
      var runs := ExpireLapsed(db.runs, q.character, q.now);
      match Dispatch.Resolve(q.rows, q.excluded)
      case Err(TriggerNotFound) => Err(TriggerMissing)
      case Err(AmbiguousTrigger) => Err(TriggerAmbiguous)
      case Ok(candidate) =>
        if SlotTaken(runs, q.character, q.token) then Err(ScriptEventActive)
        else
          var run := Run(q.character, candidate.version, q.token, q.expires, row.revision, Active, false);
          var scene := if q.area != "" then q.area else row.world;
          Ok(Launch(
            db.(runs := runs[db.nextRun := run], nextRun := db.nextRun + 1),
            Started(db.nextRun, candidate.version, ScriptState(row.revision, scene, row.yen, row.story, row.inventory))))
  }

  predicate Holds(db: Db, id: int, token: int) {
    id in db.runs && db.runs[id].token == token && db.runs[id].status == Active
  }

  function RenewRun(db: Db, id: int, token: int, now: int, expires: int): (r: Result<Db, StoreError>) {
    if Holds(db, id, token) && db.runs[id].leaseExpires > now
    then Ok(db.(runs := db.runs[id := db.runs[id].(leaseExpires := expires)]))
    else Err(ScriptEventEnded)
  }

  /** Cancelling and failing ask for the token but not for a live lease. */
  function CloseRun(db: Db, id: int, token: int, status: RunStatus): (r: Result<Db, StoreError>) {
    if Holds(db, id, token) then Ok(db.(runs := db.runs[id := db.runs[id].(status := status)]))
    else Err(ScriptEventEnded)
  }

  function FinishRun(db: Db, items: Items, id: int, token: int, expected: int, effects: seq<Effect>, passed: bool, now: int)
    : (r: Result<Db, StoreError>)
  {
    if !Holds(db, id, token) || db.runs[id].leaseExpires <= now || db.runs[id].stateRevision != expected
      || db.runs[id].character !in db.characters
    then Err(ScriptEventEnded)
    else
      var owner := db.runs[id].character;
      if db.characters[owner].revision != expected then Err(RevisionConflict)
      else
        match CommitEffects(db.characters[owner], items, id, effects)
        case Err(e) => Err(e)
        case Ok(row) =>
          var run := db.runs[id].(status := if passed then PassedRun else CompletedRun, completionRequested := !passed);
          Ok(db.(characters := db.characters[owner := row], runs := db.runs[id := run]))
  }

  type OutsideTransaction = t: Transaction | !t.CommitRun? witness SoftDelete

  function Transact(db: Db, items: Items, character: int, t: OutsideTransaction): (r: Result<Db, StoreError>) {
    if character !in db.characters then Err(NotFound)
    else
      match Perform(db.characters[character], items, t)
      case Err(e) => Err(e)
      case Ok(row) => Ok(db.(characters := db.characters[character := row]))
  }

  // ---------- Histories ----------

  datatype Op =
    | StartOp(request: StartRequest)
    | RenewOp(id: int, token: int, now: int, expires: int)
    | CancelOp(id: int, token: int)
    | FailOp(id: int, token: int)
    | FinishOp(id: int, token: int, expected: int, effects: seq<Effect>, passed: bool, now: int)
    | OutsideOp(character: int, transaction: OutsideTransaction)

  function Settle(db: Db, r: Result<Db, StoreError>): (d: Db) {
    match r case Ok(next) => next case Err(_) => db
  }

  /** One transaction; a failed one is rolled back. */
  function Step(db: Db, items: Items, op: Op): (d: Db) {
    match op
    case StartOp(q) => (match StartRun(db, q) case Ok(launch) => launch.db case Err(_) => db)
    case RenewOp(id, token, now, expires) => Settle(db, RenewRun(db, id, token, now, expires))
    case CancelOp(id, token) => Settle(db, CloseRun(db, id, token, CancelledRun))
    case FailOp(id, token) => Settle(db, CloseRun(db, id, token, FailedRun))
    case FinishOp(id, token, expected, effects, passed, now) =>
      Settle(db, FinishRun(db, items, id, token, expected, effects, passed, now))
    case OutsideOp(character, t) => Settle(db, Transact(db, items, character, t))
  }

  function AfterOps(db: Db, items: Items, ops: seq<Op>): (d: Db) {
    if ops == [] then db else Step(AfterOps(db, items, ops[..|ops| - 1]), items, ops[|ops| - 1])
  }
}
