/**
 * The versions of a script, from draft to publication and after (internal/store/scripts.go,
 * internal/store/script_rollbacks.go, internal/store/official_scripts.go).
 */
module ScriptVersions {
  import opened Common

  datatype Status = Draft | Review | Published | Superseded | Reference

  datatype Role = Owner | Editor | Reviewer

  datatype Origin = Community | Official | Recovered

  /** The Yarn source, or the recovered document, and the triggers indexed for it. */
  datatype Content = Yarn(source: string, triggers: seq<string>) | Native(document: string)

  /** A flag, actor, item or place that a content names. */
  datatype Usage = Usage(kind: string, identifier: string)

  /** What the compiler made of a content, with which compiler and command schema, and what it found named there. */
  datatype Build = Build(program: Option<string>, compiler: int, schema: int, identifiers: set<Usage>)

  /** `recorded` is the content whose hash was stored with the version when it was imported. */
  datatype Version = Version(
    status: Status, content: Content, build: Build, revision: nat, recorded: Option<Content>, provenance: string,
    basedOn: Option<nat>)

  /** Version `n` of a script is its row number `n - 1`: rows are numbered from one and never removed. */
  datatype Script = Script(
    slug: string, origin: Origin, archived: bool, published: Option<nat>, reference: Option<nat>,
    roles: map<int, Role>, versions: seq<Version>)

  datatype Error = NotFound | Forbidden | RevisionConflict | NativeReference | ReadOnly | Immutable | NotCompiled | NotSuperseded | OtherOrigin | SlugTaken

  type Edited = Result<Script, Error>

  predicate Has(s: Script, n: nat) {
    1 <= n <= |s.versions|
  }

  function At(s: Script, n: nat): (v: Version)
    requires Has(s, n)
  {
    s.versions[n - 1]
  }

  predicate CanEdit(s: Script, account: int) {
    account in s.roles && s.roles[account] in {Owner, Editor}
  }

  // ---------- The guards of the database ----------

  predicate Moves(before: Status, after: Status) {
    || before == after
    || (before == Draft && after in {Review, Reference})
    || (before == Review && after == Published)
    || (before == Published && after == Superseded)
  }

  /** Rows are read-only while their script is archived, frozen once they leave draft, and only move on. */
  function Write(s: Script, n: nat, v: Version): (r: Edited)
    requires Has(s, n)
  {
    var before := At(s, n);
    if s.archived then Err(ReadOnly)
    else if before.status != Draft && v != before.(status := v.status) then Err(Immutable)
    else if !Moves(before.status, v.status) then Err(Immutable)
    else Ok(s.(versions := s.versions[n - 1 := v]))
  }

  function Append(s: Script, v: Version): (r: Edited) {
    if s.archived then Err(ReadOnly) else Ok(s.(versions := s.versions + [v]))
  }

  /** The current version gives way, if it is still published. */
  function Supersede(s: Script): (r: Edited) {
    if s.published.None? || !Has(s, s.published.value) || At(s, s.published.value).status != Published then Ok(s)
    else Write(s, s.published.value, At(s, s.published.value).(status := Superseded))
  }

  /** Publishes a version in review, and points to it. */
  function Promote(s: Script, n: nat): (r: Edited)
    requires Has(s, n)
  {
    if At(s, n).status != Review then Err(NotFound)
    else
      match Write(s, n, At(s, n).(status := Published))
      case Err(e) => Err(e)
      case Ok(next) => Ok(next.(published := Some(n)))
  }

  // ---------- Editing ----------

  const NO_SCRIPT := Script("", Community, false, None, None, map[], [])

  function NewVersion(content: Content, build: Build): (v: Version) {
    Version(Draft, content, build, 1, None, "", None)
  }

  function CreateYarnScript(account: int, slug: string, content: Content, build: Build): (s: Script) {
    NO_SCRIPT.(slug := slug, roles := map[account := Owner], versions := [NewVersion(content, build)])
  }

  function SaveDraft(s: Script, account: int, n: nat, revision: nat, content: Content, build: Build): (r: Edited)
    requires content.Yarn?
  {
    if !Has(s, n) || At(s, n).revision != revision || At(s, n).status != Draft || !At(s, n).content.Yarn? || !CanEdit(s, account) then
      Err(RevisionConflict)
    else Write(s, n, At(s, n).(content := content, build := build, revision := revision + 1))
  }

  /** A new draft based on a version; readers may start from what is current, and become editors. */
  function CreateVersion(s: Script, account: int, basedOn: nat): (r: Edited) {
    if !Has(s, basedOn) then Err(NotFound)
    else if At(s, basedOn).content.Native? then Err(NativeReference)
    else if account in s.roles && s.roles[account] == Reviewer then Err(Forbidden)
    else if !CanEdit(s, account) && s.published != Some(basedOn) && s.reference != Some(basedOn) then Err(NotFound)
    else
      var joined := if CanEdit(s, account) then s else s.(roles := s.roles[account := Editor]);
      Append(joined, At(s, basedOn).(status := Draft, revision := 1, basedOn := Some(basedOn)))
  }

  predicate Current(build: Build, compiler: int, schema: int) {
    build.program.Some? && build.compiler == compiler && build.schema == schema
  }

  function Submit(s: Script, account: int, n: nat, compiler: int, schema: int): (r: Edited) {
    if !Has(s, n) || At(s, n).status != Draft || (At(s, n).content.Yarn? && !Current(At(s, n).build, compiler, schema))
      || !CanEdit(s, account)
    then Err(NotFound)
    else Write(s, n, At(s, n).(status := Review))
  }

  // ---------- Publishing ----------

  /** `checked` is what the checks before the transaction said of the row as it was then. */
  function Publish(s: Script, moderator: bool, n: nat, checked: Result<bool, Error>): (r: Edited) {
    if !moderator then Err(Forbidden)
    else if checked.Err? then Err(checked.error)
    else if !Has(s, n) then Err(NotFound)
    else
      match Supersede(s)
      case Err(e) => Err(e)
      case Ok(cleared) => Promote(cleared, n)
  }

  /** What a rollback found, and compiled, before its transaction. */
  datatype Plan = Plan(
    target: nat, current: nat, content: Content, program: string, compiler: int, schema: int, identifiers: set<Usage>)

  function PlanRollback(s: Script, moderator: bool, target: nat, build: Build): (r: Result<Plan, Error>) {
    if !moderator then Err(Forbidden)
    else if s.origin != Community || s.archived then Err(Forbidden)
    else if !Has(s, target) || At(s, target).status != Superseded then Err(NotFound)
    else if !At(s, target).content.Yarn? || Blank(At(s, target).content.source) || s.published.None? || s.published == Some(target) then
      Err(NotSuperseded)
    else if build.program.None? then Err(NotCompiled)
    else
      Ok(Plan(
        target, s.published.value, At(s, target).content, build.program.value, build.compiler, build.schema, build.identifiers))
  }

  /** The new row of a rollback carries the target's provenance and recorded hash. */
  function RolledBack(s: Script, plan: Plan): (v: Version)
    requires Has(s, plan.target)
  {
    var target := At(s, plan.target);
    Version(
      Draft, plan.content, Build(Some(plan.program), plan.compiler, plan.schema, plan.identifiers), 1,
      target.recorded, target.provenance, Some(plan.target))
  }

  function Rollback(s: Script, moderator: bool, plan: Plan): (r: Edited) {
    if !moderator then Err(Forbidden)
    else if s.origin != Community || s.archived || s.published != Some(plan.current) then Err(RevisionConflict)
    else if !Has(s, plan.target) || At(s, plan.target).status != Superseded then Err(RevisionConflict)
    else
      match Append(s, RolledBack(s, plan))
      case Err(e) => Err(e)
      case Ok(appended) => PublishLast(appended)
  }

  /** Sends the newest draft straight through review, in place of the current version. */
  function PublishLast(s: Script): (r: Edited) {
    var n := |s.versions|;
    if n == 0 then Err(NotFound)
    else
      match Write(s, n, At(s, n).(status := Review))
      case Err(e) => Err(e)
      case Ok(reviewed) =>
        match Supersede(reviewed)
        case Err(e) => Err(e)
        case Ok(cleared) => Promote(cleared, n)
  }

  // ---------- Imports ----------

  /** An official translation as it is on disk, and what it compiles to. */
  datatype Import = Import(slug: string, content: Content, build: Build, provenance: string)

  /** The current version is taken to be this import if its recorded hash, its provenance and its build say so. */
  predicate UpToDate(s: Script, i: Import) {
    && s.published.Some? && Has(s, s.published.value)
    && var v := At(s, s.published.value);
       v.recorded == Some(i.content) && v.build.compiler == i.build.compiler && v.build.schema == i.build.schema
       && v.provenance == i.provenance && v.build.identifiers == i.build.identifiers
  }

  function ImportOfficial(s: Script, i: Import): (r: Edited) {
    if s.origin != Official then Err(OtherOrigin)
    else if i.build.program.None? || !i.content.Yarn? then Err(NotCompiled)
    else if UpToDate(s, i) then Ok(s)
    else
      match Append(s, Version(Draft, i.content, i.build, 1, Some(i.content), i.provenance, None))
      case Err(e) => Err(e)
      case Ok(appended) => PublishLast(appended)
  }

  function NewOfficial(slug: string): (s: Script) {
    NO_SCRIPT.(slug := slug, origin := Official)
  }

  /** A recovered document becomes a reference, once. */
  function ImportRecovered(s: Script, document: string, identifiers: set<Usage>, provenance: string): (r: Edited) {
    if exists n :: 0 <= n < |s.versions| && s.versions[n].recorded == Some(Native(document)) then Ok(s)
    else
      var v := Version(Draft, Native(document), Build(None, 0, 0, identifiers), 1, Some(Native(document)), provenance, None);
      match Append(s, v)
      case Err(e) => Err(e)
      case Ok(appended) =>
        var n := |appended.versions|;
        match Write(appended, n, v.(status := Reference))
        case Err(e) => Err(e)
        case Ok(next) => Ok(next.(reference := Some(n)))
  }

  function SetArchived(s: Script, account: int, archived: bool): (r: Edited) {
    if account in s.roles && s.roles[account] == Owner then Ok(s.(archived := archived)) else Err(Forbidden)
  }

  // ---------- Histories ----------

  datatype Op =
    | SaveOp(account: int, n: nat, revision: nat, source: string, triggers: seq<string>, build: Build)
    | CreateOp(account: int, basedOn: nat)
    | SubmitOp(account: int, n: nat, compiler: int, schema: int)
    | PublishOp(moderator: bool, n: nat, checked: Result<bool, Error>)
    | RollbackOp(moderator: bool, plan: Plan)
    | OfficialOp(update: Import)
    | RecoveredOp(document: string, identifiers: set<Usage>, provenance: string)
    | ArchiveOp(account: int, archived: bool)

  function Perform(s: Script, op: Op): (r: Edited) {
    match op
    case SaveOp(account, n, revision, source, triggers, build) => SaveDraft(s, account, n, revision, Yarn(source, triggers), build)
    case CreateOp(account, basedOn) => CreateVersion(s, account, basedOn)
    case SubmitOp(account, n, compiler, schema) => Submit(s, account, n, compiler, schema)
    case PublishOp(moderator, n, checked) => Publish(s, moderator, n, checked)
    case RollbackOp(moderator, plan) => if plan.content.Yarn? then Rollback(s, moderator, plan) else Err(NotSuperseded)
    case OfficialOp(update) => ImportOfficial(s, update)
    case RecoveredOp(document, identifiers, provenance) => ImportRecovered(s, document, identifiers, provenance)
    case ArchiveOp(account, archived) => SetArchived(s, account, archived)
  }

  /** A failed transaction changes nothing. */
  function After(s: Script, op: Op): (n: Script) {
    match Perform(s, op) case Ok(next) => next case Err(_) => s
  }

  function AfterOps(s: Script, ops: seq<Op>): (n: Script) {
    if ops == [] then s else After(AfterOps(s, ops[..|ops| - 1]), ops[|ops| - 1])
  }

  // ---------- The rows in place ----------

  /** One script's rows, changed step by step; a failed transaction is rolled back to its beginning. */
  class Rows {
    var s: Script

    constructor (s: Script)
      ensures this.s == s
    {
      this.s := s;
    }

    method WriteRow(n: nat, v: Version) returns (error: Option<Error>)
      requires Has(s, n)
      modifies this
      ensures match Write(old(s), n, v)
        case Ok(next) => error == None && s == next
        case Err(e) => error == Some(e) && s == old(s)
    {
      var before := s.versions[n - 1];
      if s.archived { return Some(ReadOnly); }
      if before.status != Draft && v != before.(status := v.status) { return Some(Immutable); }
      if !Moves(before.status, v.status) { return Some(Immutable); }
      s := s.(versions := s.versions[n - 1 := v]);
      return None;
    }

    method SaveYarnScriptDraft(account: int, n: nat, revision: nat, content: Content, build: Build) returns (error: Option<Error>)
      requires content.Yarn?
      modifies this
      ensures match SaveDraft(old(s), account, n, revision, content, build)
        case Ok(next) => error == None && s == next
        case Err(e) => error == Some(e) && s == old(s)
    {
      if !Has(s, n) || !CanEdit(s, account) { return Some(RevisionConflict); }
      var row := s.versions[n - 1];
      if row.revision != revision || row.status != Draft || !row.content.Yarn? { return Some(RevisionConflict); }
      error := WriteRow(n, row.(content := content, build := build, revision := revision + 1));
    }

    method CreateScriptVersion(account: int, basedOn: nat) returns (error: Option<Error>)
      modifies this
      ensures match CreateVersion(old(s), account, basedOn)
        case Ok(next) => error == None && s == next
        case Err(e) => error == Some(e) && s == old(s)
    {
      if !Has(s, basedOn) { return Some(NotFound); }
      var base, start := s.versions[basedOn - 1], s;
      if base.content.Native? { return Some(NativeReference); }
      if account in s.roles && s.roles[account] == Reviewer { return Some(Forbidden); }
      if !CanEdit(s, account) {
        if s.published != Some(basedOn) && s.reference != Some(basedOn) { return Some(NotFound); }
        s := s.(roles := s.roles[account := Editor]);
      }
      error := InsertRow(base.(status := Draft, revision := 1, basedOn := Some(basedOn)));
      if error.Some? { s := start; }
    }

    method SubmitScriptVersion(account: int, n: nat, compiler: int, schema: int) returns (error: Option<Error>)
      modifies this
      ensures match Submit(old(s), account, n, compiler, schema)
        case Ok(next) => error == None && s == next
        case Err(e) => error == Some(e) && s == old(s)
    {
      if !Has(s, n) || !CanEdit(s, account) { return Some(NotFound); }
      var row := s.versions[n - 1];
      if row.status != Draft || (row.content.Yarn? && !Current(row.build, compiler, schema)) { return Some(NotFound); }
      error := WriteRow(n, row.(status := Review));
    }

    /** Every step must succeed for the transaction to commit. */
    method PublishTransaction(n: nat) returns (error: Option<Error>)
      requires Has(s, n)
      modifies this
      ensures match Publish(old(s), true, n, Ok(true))
        case Ok(next) => error == None && s == next
        case Err(e) => error == Some(e) && s == old(s)
    {
      var start := s;
      if s.published.Some? && Has(s, s.published.value) && s.versions[s.published.value - 1].status == Published {
        error := WriteRow(s.published.value, s.versions[s.published.value - 1].(status := Superseded));
        if error.Some? { s := start; return; }
      }
      if s.versions[n - 1].status != Review {
        s := start;
        return Some(NotFound);
      }
      error := WriteRow(n, s.versions[n - 1].(status := Published));
      if error.Some? { s := start; return; }
      s := s.(published := Some(n));
    }

    method PublishNewest() returns (error: Option<Error>)
      requires s.versions != []
      modifies this
      ensures match PublishLast(old(s))
        case Ok(next) => error == None && s == next
        case Err(e) => error == Some(e) && s == old(s)
    {
      var start, n := s, |s.versions|;
      error := WriteRow(n, s.versions[n - 1].(status := Review));
      if error.Some? { return; }
      error := PublishTransaction(n);
      if error.Some? { s := start; }
    }

    method InsertRow(v: Version) returns (error: Option<Error>)
      modifies this
      ensures match Append(old(s), v)
        case Ok(next) => error == None && s == next
        case Err(e) => error == Some(e) && s == old(s)
    {
      if s.archived { return Some(ReadOnly); }
      s := s.(versions := s.versions + [v]);
      return None;
    }

    method RollbackTransaction(plan: Plan) returns (error: Option<Error>)
      modifies this
      ensures match Rollback(old(s), true, plan)
        case Ok(next) => error == None && s == next
        case Err(e) => error == Some(e) && s == old(s)
    {
      if s.origin != Community || s.archived || s.published != Some(plan.current) { return Some(RevisionConflict); }
      if !Has(s, plan.target) || s.versions[plan.target - 1].status != Superseded { return Some(RevisionConflict); }
      var start := s;
      error := InsertRow(RolledBack(s, plan));
      if error.Some? { return; }
      error := PublishNewest();
      if error.Some? { s := start; }
    }

    method ImportOfficialYarnScript(i: Import) returns (error: Option<Error>)
      modifies this
      ensures match ImportOfficial(old(s), i)
        case Ok(next) => error == None && s == next
        case Err(e) => error == Some(e) && s == old(s)
    {
      if s.origin != Official { return Some(OtherOrigin); }
      if i.build.program.None? || !i.content.Yarn? { return Some(NotCompiled); }
      if UpToDate(s, i) { return None; }
      var start := s;
      error := InsertRow(Version(Draft, i.content, i.build, 1, Some(i.content), i.provenance, None));
      if error.Some? { return; }
      error := PublishNewest();
      if error.Some? { s := start; }
    }
  }
}
