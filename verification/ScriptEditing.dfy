/** Who may change the versions of a script, and when it goes through (internal/store/scripts.go, internal/store/script_rollbacks.go). */
module ScriptEditing {
  import opened Common
  import opened ScriptVersions
  import opened ScriptVersionTheorems

  // ---------- Who, and when ----------

  /** Owners and editors work on a script; reviewers read it. */
  predicate WorksOn(s: Script, account: int) {
    account in s.roles && s.roles[account] != Reviewer
  }

  /** One row changes and all others stay. */
  predicate OnlyRow(s: Script, t: Script, n: nat, v: Version) {
    && |t.versions| == |s.versions| && 1 <= n <= |s.versions|
    && t == s.(versions := t.versions)
    && t.versions[n - 1] == v
    && forall k :: 0 <= k < |s.versions| && k != n - 1 ==> t.versions[k] == s.versions[k]
  }

  /** A save goes through for those who work on the script, on a Yarn draft, at the revision they read. */
  lemma SavesIff(s: Script, account: int, n: nat, revision: nat, content: Content, build: Build)
    requires content.Yarn?
    ensures
      SaveDraft(s, account, n, revision, content, build).Ok?
      <==> WorksOn(s, account) && !s.archived && 1 <= n <= |s.versions| && s.versions[n - 1].status == Draft
           && s.versions[n - 1].content.Yarn? && s.versions[n - 1].revision == revision
    ensures
      var r := SaveDraft(s, account, n, revision, content, build);
      r.Ok? ==> OnlyRow(s, r.value, n, s.versions[n - 1].(content := content, build := build, revision := revision + 1))
  {
  }

  /** A new version starts from any Yarn version for those who work on the script; others but reviewers start from what is current, and join. */
  lemma CreatesIff(s: Script, account: int, basedOn: nat)
    ensures
      CreateVersion(s, account, basedOn).Ok?
      <==> !s.archived && 1 <= basedOn <= |s.versions| && s.versions[basedOn - 1].content.Yarn?
           && (WorksOn(s, account) || (account !in s.roles && Some(basedOn) in {s.published, s.reference}))
    ensures
      var r := CreateVersion(s, account, basedOn);
      r.Ok? ==>
        && |r.value.versions| == |s.versions| + 1 && r.value.versions[..|s.versions|] == s.versions
        && r.value.versions[|s.versions|] == s.versions[basedOn - 1].(status := Draft, revision := 1, basedOn := Some(basedOn))
        && WorksOn(r.value, account) && r.value.published == s.published && r.value.reference == s.reference
        && r.value.roles == if WorksOn(s, account) then s.roles else s.roles[account := Editor]
  {
  }

  /** A draft goes to review when its Yarn compiled under the compiler and schema of today. */
  lemma SubmitsIff(s: Script, account: int, n: nat, compiler: int, schema: int)
    ensures
      Submit(s, account, n, compiler, schema).Ok?
      <==> WorksOn(s, account) && !s.archived && 1 <= n <= |s.versions| && s.versions[n - 1].status == Draft
           && (s.versions[n - 1].content.Yarn? ==>
                 var build := s.versions[n - 1].build; build.program != None && build.compiler == compiler && build.schema == schema)
    ensures
      var r := Submit(s, account, n, compiler, schema);
      r.Ok? ==> OnlyRow(s, r.value, n, s.versions[n - 1].(status := Review))
  {
  }

  /** A version is published by a moderator, from review, once checked, and only while the script is not archived. */
  lemma PublishesIff(s: Script, moderator: bool, n: nat, checked: Result<bool, Error>)
    requires Orderly(s)
    ensures
      Publish(s, moderator, n, checked).Ok?
      <==> moderator && checked.Ok? && !s.archived && 1 <= n <= |s.versions| && s.versions[n - 1].status == Review
    ensures
      var r := Publish(s, moderator, n, checked);
      r.Ok? ==>
        && r.value.published == Some(n) && |r.value.versions| == |s.versions|
        && forall k :: 0 <= k < |s.versions| ==>
             r.value.versions[k] == s.versions[k].(
               status := if k == n - 1 then Published else if s.published == Some(k + 1) then Superseded else s.versions[k].status)
  {
    SupersedeSucceeds(s);
    if Publish(s, moderator, n, checked).Ok? {
      SupersedeClears(s);
      PromoteKeeps(Supersede(s).value, n);
    }
  }

  lemma SupersedeSucceeds(s: Script)
    requires Orderly(s)
    ensures !s.archived ==>
      Supersede(s).Ok? && Supersede(s).value.archived == s.archived && |Supersede(s).value.versions| == |s.versions|
      && forall k :: 0 <= k < |s.versions| ==>
           Supersede(s).value.versions[k].status == if s.published == Some(k + 1) then Superseded else s.versions[k].status
    ensures s.archived ==> Supersede(s).Err? || Supersede(s).value == s
  {
  }

  /** A rollback goes through while what it was planned on holds: a live community script, the same current version, a superseded target. */
  lemma RollsBackIff(s: Script, moderator: bool, plan: Plan)
    requires Orderly(s)
    ensures
      Rollback(s, moderator, plan).Ok?
      <==> moderator && s.origin == Community && !s.archived && s.published == Some(plan.current)
           && 1 <= plan.target <= |s.versions| && s.versions[plan.target - 1].status == Superseded
  {
    if 1 <= plan.target <= |s.versions| && !s.archived {
      var appended := Append(s, RolledBack(s, plan)).value;
      LastIsPublished(appended);
    }
  }

  lemma LastIsPublished(s: Script)
    requires s.versions != [] && !s.archived && s.versions[|s.versions| - 1].status == Draft
    ensures PublishLast(s).Ok?
  {
  }

  /** A rollback is planned for a Yarn version of a live community script that was replaced by the current one, if it still compiles. */
  lemma PlannedIff(s: Script, moderator: bool, target: nat, build: Build)
    ensures
      PlanRollback(s, moderator, target, build).Ok?
      <==> moderator && s.origin == Community && !s.archived && 1 <= target <= |s.versions|
           && s.versions[target - 1].status == Superseded && s.versions[target - 1].content.Yarn?
           && !Blank(s.versions[target - 1].content.source) && s.published.Some? && s.published.value != target && build.program.Some?
  {
  }

  /** What a rollback publishes says where its source came from: the target's provenance and imported content. */
  lemma RolledBackAsImported(s: Script, moderator: bool, plan: Plan)
    requires Orderly(s) && plan.content.Yarn? && Rollback(s, moderator, plan).Ok?
    ensures
      var t := Rollback(s, moderator, plan).value;
      && |t.versions| == |s.versions| + 1
      && t.versions[|s.versions|]
         == Version(Published, plan.content, Build(Some(plan.program), plan.compiler, plan.schema, plan.identifiers), 1,
                    s.versions[plan.target - 1].recorded, s.versions[plan.target - 1].provenance, Some(plan.target))
  {
    var appended := Append(s, RolledBack(s, plan)).value;
    AppendKeeps(s, RolledBack(s, plan));
    PublishLastKeeps(appended);
  }

  /** Whoever creates a script owns it; owners, and nobody else, archive it and bring it back. */
  lemma OwnersArchive(s: Script, account: int, archived: bool, slug: string, content: Content, build: Build)
    ensures CreateYarnScript(account, slug, content, build).roles == map[account := Owner]
    ensures SetArchived(s, account, archived)
      == if account in s.roles && s.roles[account] == Owner then Ok(s.(archived := archived)) else Err(Forbidden)
  {
  }

  /** An import is taken to be there already by what was recorded of the current version, and how it was built. */
  predicate IsCurrent(s: Script, i: Import) {
    && s.published.Some? && 1 <= s.published.value <= |s.versions|
    && var v := s.versions[s.published.value - 1];
    && v.recorded == Some(i.content) && v.provenance == i.provenance
    && v.build.compiler == i.build.compiler && v.build.schema == i.build.schema && v.build.identifiers == i.build.identifiers
  }

  /** An official import goes through for official scripts, if it compiled; it changes nothing if it is there already. */
  lemma ImportsIff(s: Script, i: Import)
    requires Orderly(s)
    ensures
      ImportOfficial(s, i).Ok?
      <==> s.origin == Official && i.build.program.Some? && i.content.Yarn? && (IsCurrent(s, i) || !s.archived)
    ensures ImportOfficial(s, i).Ok? && IsCurrent(s, i) ==> ImportOfficial(s, i).value == s
    ensures ImportOfficial(s, i).Ok? && !IsCurrent(s, i) ==>
      var t := ImportOfficial(s, i).value;
      && |t.versions| == |s.versions| + 1 && t.published == Some(|t.versions|)
      && t.versions[|s.versions|] == Version(Published, i.content, i.build, 1, Some(i.content), i.provenance, None)
  {
    if !s.archived {
      var v := Version(Draft, i.content, i.build, 1, Some(i.content), i.provenance, None);
      var appended := Append(s, v).value;
      LastIsPublished(appended);
      if i.build.program.Some? && i.content.Yarn? {
        AppendKeeps(s, v);
        PublishLastKeeps(appended);
      }
    }
  }

  /** A recovered document becomes the reference of a script that is not archived, once. */
  lemma RecoveredOnce(s: Script, document: string, identifiers: set<Usage>, provenance: string)
    ensures
      var known := exists k :: 0 <= k < |s.versions| && s.versions[k].recorded == Some(Native(document));
      var r := ImportRecovered(s, document, identifiers, provenance);
      && (known ==> r == Ok(s))
      && (!known && s.archived ==> r == Err(ReadOnly))
      && (!known && !s.archived ==>
            && r.Ok? && r.value.reference == Some(|s.versions| + 1) && r.value.published == s.published
            && r.value.versions == s.versions + [Version(
                 Reference, Native(document), Build(None, 0, 0, identifiers), 1, Some(Native(document)), provenance, None)]
            && ImportRecovered(r.value, document, identifiers, provenance) == Ok(r.value))
  {
    var r := ImportRecovered(s, document, identifiers, provenance);
    if r.Ok? && r.value != s {
      assert r.value.versions[|s.versions|].recorded == Some(Native(document));
    }
  }

  // ---------- Histories ----------

  /** What a step must be for another version to become the current one. */
  predicate Publishes(s: Script, op: Op, n: nat) {
    match op
    case PublishOp(moderator, version, checked) =>
      moderator && checked.Ok? && version == n && 1 <= n <= |s.versions| && s.versions[n - 1].status == Review
    case RollbackOp(moderator, plan) =>
      moderator && s.origin == Community && n == |s.versions| + 1 && s.published == Some(plan.current)
      && 1 <= plan.target <= |s.versions| && s.versions[plan.target - 1].status == Superseded
    case OfficialOp(_) => s.origin == Official && n == |s.versions| + 1
    case _ => false
  }

  lemma EditsLeaveTheCurrentVersion(s: Script, op: Op)
    requires op.SaveOp? || op.CreateOp? || op.SubmitOp? || op.ArchiveOp? || op.RecoveredOp?
    ensures After(s, op).published == s.published
  {
  }

  lemma LastBecomesCurrent(s: Script)
    requires s.versions != [] && PublishLast(s).Ok?
    ensures PublishLast(s).value.published == Some(|s.versions|)
  {
  }

  /** Another version only becomes current when a moderator publishes it from review or rolls back, or an official import brings it. */
  lemma CurrentChangesOnlyByPublishing(s: Script, op: Op)
    ensures
      var now := After(s, op).published;
      now != s.published ==> !s.archived && now.Some? && Publishes(s, op, now.value)
  {
    match op
    case PublishOp(_, _, _) =>
    case RollbackOp(_, plan) =>
      if Perform(s, op).Ok? { LastBecomesCurrent(Append(s, RolledBack(s, plan)).value); }
    case OfficialOp(i) =>
      if Perform(s, op).Ok? && !UpToDate(s, i) {
        LastBecomesCurrent(Append(s, Version(Draft, i.content, i.build, 1, Some(i.content), i.provenance, None)).value);
      }
    case SaveOp(_, _, _, _, _, _) => EditsLeaveTheCurrentVersion(s, op);
    case CreateOp(_, _) => EditsLeaveTheCurrentVersion(s, op);
    case SubmitOp(_, _, _, _) => EditsLeaveTheCurrentVersion(s, op);
    case RecoveredOp(_, _, _) => EditsLeaveTheCurrentVersion(s, op);
    case ArchiveOp(_, _) => EditsLeaveTheCurrentVersion(s, op);
  }

  /** Of two saves made from one revision at most one goes through, whatever else happens in between. */
  lemma OneSavePerRevision(
    s: Script, account: int, n: nat, revision: nat, content: Content, build: Build, ops: seq<Op>, other: int, late: Content, rebuilt: Build)
    requires Orderly(s) && content.Yarn? && late.Yarn? && SaveDraft(s, account, n, revision, content, build).Ok?
    ensures SaveDraft(AfterOps(SaveDraft(s, account, n, revision, content, build).value, ops), other, n, revision, late, rebuilt).Err?
  {
    var op := SaveOp(account, n, revision, content.source, content.triggers, build);
    assert Perform(s, op) == SaveDraft(s, account, n, revision, content, build);
    StepKeeps(s, op);
    var saved := After(s, op);
    HistoryKeeps(saved, ops);
    assert Continues(At(saved, n), At(AfterOps(saved, ops), n));
  }

  /** What is not saved over is what gets published: a draft that was saved and then sent to review goes out as it was saved. */
  lemma PublishedAsSubmitted(s: Script, account: int, n: nat, compiler: int, schema: int, ops: seq<Op>)
    requires Orderly(s) && Submit(s, account, n, compiler, schema).Ok?
    ensures
      var later := AfterOps(Submit(s, account, n, compiler, schema).value, ops);
      && 1 <= n <= |later.versions| && later.versions[n - 1].content == s.versions[n - 1].content
      && later.versions[n - 1].build == s.versions[n - 1].build
      && later.versions[n - 1].status in {Review, Published, Superseded}
  {
    var op := SubmitOp(account, n, compiler, schema);
    assert Perform(s, op) == Submit(s, account, n, compiler, schema);
    StepKeeps(s, op);
    var reviewed := After(s, op);
    HistoryKeeps(reviewed, ops);
    assert Continues(At(reviewed, n), At(AfterOps(reviewed, ops), n));
  }
}
