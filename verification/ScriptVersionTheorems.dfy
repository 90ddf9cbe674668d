/** The life of script versions over every history. */
module ScriptVersionTheorems {
  import opened Common
  import opened ScriptVersions

  /** At most one version is published, and it is the current one. */
  ghost predicate CurrentIsPublished(s: Script) {
    && (forall n :: 1 <= n <= |s.versions| && At(s, n).status == Published ==> s.published == Some(n))
    && (s.published.Some? ==> Has(s, s.published.value) && At(s, s.published.value).status == Published)
  }

  /** Whatever left draft was compiled; recovered documents are only references. */
  ghost predicate LeftDraftCompiled(s: Script) {
    forall n :: 1 <= n <= |s.versions| ==>
      && (At(s, n).content.Native? ==> At(s, n).status == Reference)
      && (At(s, n).status in {Review, Published, Superseded} ==> At(s, n).build.program.Some?)
  }

  ghost predicate Orderly(s: Script) {
    CurrentIsPublished(s) && LeftDraftCompiled(s)
  }

  /** The order in which a version's status can move. */
  predicate Reaches(before: Status, after: Status) {
    || before == after
    || before == Draft
    || (before == Review && after in {Published, Superseded})
    || (before == Published && after == Superseded)
  }

  /** A version is still there: it has only moved on, and is unchanged if it had left draft. */
  predicate Continues(v: Version, w: Version) {
    && Reaches(v.status, w.status)
    && v.revision <= w.revision
    && (v.status != Draft ==> w == v.(status := w.status))
  }

  ghost predicate Extends(s: Script, t: Script) {
    && |s.versions| <= |t.versions|
    && forall n :: 1 <= n <= |s.versions| ==> Continues(At(s, n), At(t, n))
  }

  lemma ExtendsSelf(s: Script)
    ensures Extends(s, s)
  {
  }

  lemma ExtendsTransitive(s: Script, t: Script, u: Script)
    requires Extends(s, t) && Extends(t, u)
    ensures Extends(s, u)
  {
    forall n | 1 <= n <= |s.versions| ensures Continues(At(s, n), At(u, n)) {
      assert Continues(At(s, n), At(t, n)) && Continues(At(t, n), At(u, n));
    }
  }

  lemma WriteExtends(s: Script, n: nat, v: Version)
    requires Has(s, n) && Write(s, n, v).Ok? && At(s, n).revision <= v.revision
    ensures Extends(s, Write(s, n, v).value)
  {
  }

  lemma SupersedeClears(s: Script)
    requires CurrentIsPublished(s) && Supersede(s).Ok?
    ensures
      var t := Supersede(s).value;
      && Extends(s, t) && |t.versions| == |s.versions|
      && (forall n :: 1 <= n <= |t.versions| ==>
            && At(t, n).status != Published
            && At(t, n) == if s.published == Some(n) then At(s, n).(status := Superseded) else At(s, n))
  {
  }

  lemma PromoteKeeps(s: Script, n: nat)
    requires Has(s, n) && LeftDraftCompiled(s) && Promote(s, n).Ok?
    requires forall k :: 1 <= k <= |s.versions| ==> At(s, k).status != Published
    ensures
      var t := Promote(s, n).value;
      Orderly(t) && Extends(s, t) && |t.versions| == |s.versions| && t.published == Some(n) && At(t, n) == At(s, n).(status := Published)
      && forall k :: 1 <= k <= |s.versions| && k != n ==> At(t, k) == At(s, k)
  {
    var t := Promote(s, n).value;
    forall k | 1 <= k <= |s.versions| ensures At(t, k) == if k == n then At(s, n).(status := Published) else At(s, k) {
    }
  }

  lemma PublishKeeps(s: Script, moderator: bool, n: nat, checked: Result<bool, Error>)
    requires Orderly(s) && Publish(s, moderator, n, checked).Ok?
    ensures Orderly(Publish(s, moderator, n, checked).value) && Extends(s, Publish(s, moderator, n, checked).value)
  {
    SupersedeClears(s);
    var cleared := Supersede(s).value;
    PromoteKeeps(cleared, n);
    ExtendsTransitive(s, cleared, Promote(cleared, n).value);
  }

  lemma AppendKeeps(s: Script, v: Version)
    requires Orderly(s) && Append(s, v).Ok? && v.status == Draft
    ensures
      var t := Append(s, v).value;
      && CurrentIsPublished(t) && Extends(s, t)
      && (v.content.Yarn? ==> LeftDraftCompiled(t))
  {
  }

  /** The newest version goes out, the current one gives way, and every other row stays. */
  lemma PublishLastKeeps(s: Script)
    requires Orderly(s) && s.versions != [] && At(s, |s.versions|).build.program.Some? && PublishLast(s).Ok?
    ensures
      var t, n := PublishLast(s).value, |s.versions|;
      && Orderly(t) && Extends(s, t) && |t.versions| == n && t.published == Some(n)
      && At(t, n) == At(s, n).(status := Published)
      && forall k :: 1 <= k < n ==> At(t, k) == if s.published == Some(k) then At(s, k).(status := Superseded) else At(s, k)
  {
    var n := |s.versions|;
    var reviewed := Write(s, n, At(s, n).(status := Review)).value;
    WriteExtends(s, n, At(s, n).(status := Review));
    SupersedeClears(reviewed);
    var cleared := Supersede(reviewed).value;
    PromoteKeeps(cleared, n);
    ExtendsTransitive(s, reviewed, cleared);
    ExtendsTransitive(s, cleared, Promote(cleared, n).value);
  }

  lemma RollbackKeeps(s: Script, moderator: bool, plan: Plan)
    requires Orderly(s) && plan.content.Yarn? && Rollback(s, moderator, plan).Ok?
    ensures Orderly(Rollback(s, moderator, plan).value) && Extends(s, Rollback(s, moderator, plan).value)
  {
    AppendKeeps(s, RolledBack(s, plan));
    var appended := Append(s, RolledBack(s, plan)).value;
    PublishLastKeeps(appended);
    ExtendsTransitive(s, appended, PublishLast(appended).value);
  }

  lemma OfficialKeeps(s: Script, i: Import)
    requires Orderly(s) && ImportOfficial(s, i).Ok?
    ensures Orderly(ImportOfficial(s, i).value) && Extends(s, ImportOfficial(s, i).value)
  {
    if UpToDate(s, i) {
      ExtendsSelf(s);
    } else {
      var v := Version(Draft, i.content, i.build, 1, Some(i.content), i.provenance, None);
      AppendKeeps(s, v);
      var appended := Append(s, v).value;
      PublishLastKeeps(appended);
      ExtendsTransitive(s, appended, PublishLast(appended).value);
    }
  }

  lemma RecoveredKeeps(s: Script, document: string, identifiers: set<Usage>, provenance: string)
    requires Orderly(s) && ImportRecovered(s, document, identifiers, provenance).Ok?
    ensures
      var t := ImportRecovered(s, document, identifiers, provenance).value;
      Orderly(t) && Extends(s, t)
  {
    var t := ImportRecovered(s, document, identifiers, provenance).value;
    forall n | 1 <= n <= |s.versions| ensures At(t, n) == At(s, n) {
    }
  }

  /** Changing one row that is not published, and stays so, keeps everything in order. */
  lemma RowKeeps(s: Script, n: nat, v: Version)
    requires Orderly(s) && Has(s, n) && Write(s, n, v).Ok? && At(s, n).revision <= v.revision
    requires At(s, n).status != Published && v.status != Published && At(s, n).status == Draft
    requires v.content.Yarn? && (v.status == Review ==> v.build.program.Some?)  && v.status in {Draft, Review}
    ensures Orderly(Write(s, n, v).value) && Extends(s, Write(s, n, v).value)
  {
    var t := Write(s, n, v).value;
    forall k | 1 <= k <= |s.versions| ensures At(t, k) == if k == n then v else At(s, k) {
    }
  }

  lemma SameRowsKeep(s: Script, t: Script)
    requires Orderly(s) && t.versions == s.versions && t.published == s.published
    ensures Orderly(t) && Extends(s, t)
  {
    forall n | 1 <= n <= |t.versions| ensures At(t, n) == At(s, n) {
    }
  }

  lemma EditKeeps(s: Script, op: Op)
    requires Orderly(s) && Perform(s, op).Ok? && (op.SaveOp? || op.CreateOp? || op.SubmitOp? || op.ArchiveOp?)
    ensures Orderly(Perform(s, op).value) && Extends(s, Perform(s, op).value)
  {
    match op
    case SaveOp(account, n, revision, source, triggers, build) =>
      RowKeeps(s, n, At(s, n).(content := Yarn(source, triggers), build := build, revision := revision + 1));
    case CreateOp(account, basedOn) =>
      var joined := if CanEdit(s, account) then s else s.(roles := s.roles[account := Editor]);
      SameRowsKeep(s, joined);
      AppendKeeps(joined, At(s, basedOn).(status := Draft, revision := 1, basedOn := Some(basedOn)));
    case SubmitOp(account, n, compiler, schema) =>
      assert At(s, n).content.Yarn?;
      RowKeeps(s, n, At(s, n).(status := Review));
    case ArchiveOp(_, _) => SameRowsKeep(s, Perform(s, op).value);
  }

  lemma StepKeeps(s: Script, op: Op)
    requires Orderly(s)
    ensures Orderly(After(s, op)) && Extends(s, After(s, op))
  {
    if Perform(s, op).Ok? {
      match op
      case PublishOp(moderator, n, checked) => PublishKeeps(s, moderator, n, checked);
      case RollbackOp(moderator, plan) => RollbackKeeps(s, moderator, plan);
      case OfficialOp(update) => OfficialKeeps(s, update);
      case RecoveredOp(document, identifiers, provenance) => RecoveredKeeps(s, document, identifiers, provenance);
      case SaveOp(_, _, _, _, _, _) => EditKeeps(s, op);
      case CreateOp(_, _) => EditKeeps(s, op);
      case SubmitOp(_, _, _, _) => EditKeeps(s, op);
      case ArchiveOp(_, _) => EditKeeps(s, op);
    }
  }

  /**
   * Over every history: one published version at most, and it is the current one; statuses only move
   * on; nothing changes after draft; and nothing leaves draft for readers uncompiled.
   */
  lemma {:induction false} HistoryKeeps(s: Script, ops: seq<Op>)
    requires Orderly(s)
    ensures Orderly(AfterOps(s, ops)) && Extends(s, AfterOps(s, ops))
  {
    if ops != [] {
      var mid := AfterOps(s, ops[..|ops| - 1]);
      HistoryKeeps(s, ops[..|ops| - 1]);
      StepKeeps(mid, ops[|ops| - 1]);
      ExtendsTransitive(s, mid, AfterOps(s, ops));
    } else {
      ExtendsSelf(s);
    }
  }

  lemma NewScriptsAreOrderly(account: int, slug: string, source: string, triggers: seq<string>, build: Build)
    ensures Orderly(CreateYarnScript(account, slug, Yarn(source, triggers), build))
    ensures Orderly(NewOfficial(slug))
  {
  }

  /**
   * A rollback planned on one state and carried out on a later one publishes the target's source again,
   * freshly compiled and under the next number, and does not revive the old row.
   */
  lemma RollbackRepublishes(s: Script, ops: seq<Op>, target: nat, build: Build)
    requires Orderly(s) && PlanRollback(s, true, target, build).Ok?
    requires Rollback(AfterOps(s, ops), true, PlanRollback(s, true, target, build).value).Ok?
    ensures
      var before := AfterOps(s, ops);
      var after := Rollback(before, true, PlanRollback(s, true, target, build).value).value;
      var n := |before.versions| + 1;
      && Has(after, n) && |after.versions| == n && after.published == Some(n)
      && At(after, n).content == At(before, target).content && At(after, n).build == build
      && At(after, n).basedOn == Some(target)
      && At(after, target) == At(before, target) && At(after, target).status == Superseded
  {
    var before, plan := AfterOps(s, ops), PlanRollback(s, true, target, build).value;
    HistoryKeeps(s, ops);
    assert Continues(At(s, target), At(before, target));
    var appended := Append(before, RolledBack(before, plan)).value;
    AppendKeeps(before, RolledBack(before, plan));
    PublishLastKeeps(appended);
    assert At(appended, target) == At(before, target);
  }

  /** Importing the same translation again changes nothing. */
  lemma ImportIsIdempotent(s: Script, i: Import)
    requires Orderly(s) && ImportOfficial(s, i).Ok?
    ensures ImportOfficial(ImportOfficial(s, i).value, i) == Ok(ImportOfficial(s, i).value)
  {
    if !UpToDate(s, i) {
      var v := Version(Draft, i.content, i.build, 1, Some(i.content), i.provenance, None);
      AppendKeeps(s, v);
      PublishLastKeeps(Append(s, v).value);
    }
  }

  /**
   * After an import the published content is the imported one, unless the import was taken to be up to
   * date on the word of a recorded hash that the current content no longer has.
   */
  lemma ImportPublishesTheContentUnlessTheHashIsStale(s: Script, i: Import)
    requires Orderly(s) && ImportOfficial(s, i).Ok?
    ensures
      var t := ImportOfficial(s, i).value;
      && t.published.Some? && Has(t, t.published.value)
      && (At(t, t.published.value).content != i.content
          <==> UpToDate(s, i) && At(s, s.published.value).content != i.content)
  {
    if !UpToDate(s, i) {
      var v := Version(Draft, i.content, i.build, 1, Some(i.content), i.provenance, None);
      AppendKeeps(s, v);
      PublishLastKeeps(Append(s, v).value);
    }
  }

  /** The hash recorded with a version, if any, is that of its content. */
  ghost predicate HashesHold(s: Script) {
    forall n :: 1 <= n <= |s.versions| ==> At(s, n).recorded.GetOr(At(s, n).content) == At(s, n).content
  }

  lemma PublishingKeepsHashes(s: Script, moderator: bool, n: nat, checked: Result<bool, Error>)
    requires Orderly(s) && HashesHold(s) && Publish(s, moderator, n, checked).Ok?
    ensures HashesHold(Publish(s, moderator, n, checked).value)
  {
    SupersedeClears(s);
    PromoteKeeps(Supersede(s).value, n);
  }

  lemma ImportingKeepsHashes(s: Script, i: Import)
    requires Orderly(s) && HashesHold(s) && ImportOfficial(s, i).Ok?
    ensures HashesHold(ImportOfficial(s, i).value)
  {
    if !UpToDate(s, i) {
      var v := Version(Draft, i.content, i.build, 1, Some(i.content), i.provenance, None);
      AppendKeeps(s, v);
      PublishLastKeeps(Append(s, v).value);
    }
  }

  lemma RecoveringKeepsHashes(s: Script, document: string, identifiers: set<Usage>, provenance: string)
    requires HashesHold(s) && ImportRecovered(s, document, identifiers, provenance).Ok?
    ensures HashesHold(ImportRecovered(s, document, identifiers, provenance).value)
  {
    var t := ImportRecovered(s, document, identifiers, provenance).value;
    forall n | 1 <= n <= |s.versions| ensures At(t, n) == At(s, n) {
    }
  }

  lemma EditingKeepsHashes(s: Script, op: Op)
    requires HashesHold(s) && Perform(s, op).Ok? && (op.CreateOp? || op.SubmitOp? || op.ArchiveOp?)
    ensures HashesHold(Perform(s, op).value)
  {
    var t := Perform(s, op).value;
    forall n | 1 <= n <= |s.versions| ensures At(t, n) == At(s, n).(status := At(t, n).status) {
    }
  }

  lemma UneditedStepKeepsHashes(s: Script, op: Op)
    requires Orderly(s) && s.origin == Official && HashesHold(s) && !op.SaveOp?
    ensures After(s, op).origin == Official && HashesHold(After(s, op))
  {
    if Perform(s, op).Ok? {
      match op
      case PublishOp(moderator, n, checked) => PublishingKeepsHashes(s, moderator, n, checked);
      case OfficialOp(update) => ImportingKeepsHashes(s, update);
      case RecoveredOp(document, identifiers, provenance) => RecoveringKeepsHashes(s, document, identifiers, provenance);
      case RollbackOp(_, _) => assert false;
      case CreateOp(_, _) => EditingKeepsHashes(s, op);
      case SubmitOp(_, _, _, _) => EditingKeepsHashes(s, op);
      case ArchiveOp(_, _) => EditingKeepsHashes(s, op);
    }
  }

  lemma {:induction false} UneditedHistoryKeepsHashes(slug: string, ops: seq<Op>)
    requires forall k :: 0 <= k < |ops| ==> !ops[k].SaveOp?
    ensures var s := AfterOps(NewOfficial(slug), ops); Orderly(s) && s.origin == Official && HashesHold(s)
  {
    HistoryKeeps(NewOfficial(slug), ops);
    if ops != [] {
      var front := ops[..|ops| - 1];
      UneditedHistoryKeepsHashes(slug, front);
      UneditedStepKeepsHashes(AfterOps(NewOfficial(slug), front), ops[|ops| - 1]);
    }
  }

  /** Only edits make hashes stale: while no draft of an official script was saved, an import publishes what it brings. */
  lemma UneditedImportsPublishTheContent(slug: string, ops: seq<Op>, i: Import)
    requires forall k :: 0 <= k < |ops| ==> !ops[k].SaveOp?
    requires ImportOfficial(AfterOps(NewOfficial(slug), ops), i).Ok?
    ensures
      var t := ImportOfficial(AfterOps(NewOfficial(slug), ops), i).value;
      t.published.Some? && Has(t, t.published.value) && At(t, t.published.value).content == i.content
  {
    UneditedHistoryKeepsHashes(slug, ops);
    ImportPublishesTheContentUnlessTheHashIsStale(AfterOps(NewOfficial(slug), ops), i);
  }

  /** The script after an import, and after a reader's edited copy of it was submitted and published. */
  function EditedAndPublished(slug: string, i: Import, account: int, source: string, triggers: seq<string>, build: Build): (s: Script) {
    AfterOps(NewOfficial(slug), [
      OfficialOp(i), CreateOp(account, 1), SaveOp(account, 2, 1, source, triggers, build),
      SubmitOp(account, 2, build.compiler, build.schema), PublishOp(true, 2, Ok(true))])
  }

  /** The official script with its rows up to there. */
  function Stage(slug: string, published: nat, roles: map<int, Role>, versions: seq<Version>): (s: Script) {
    NewOfficial(slug).(published := Some(published), roles := roles, versions := versions)
  }

  lemma FirstImport(slug: string, i: Import)
    requires i.content.Yarn? && i.build.program.Some?
    ensures
      After(NewOfficial(slug), OfficialOp(i))
      == Stage(slug, 1, map[], [Version(Published, i.content, i.build, 1, Some(i.content), i.provenance, None)])
  {
    var v := Version(Draft, i.content, i.build, 1, Some(i.content), i.provenance, None);
    assert Append(NewOfficial(slug), v).value.versions == [v];
  }

  /** A reader starts from the published version, and saves, submits and has published another text. */
  lemma ReaderEdits(slug: string, v: Version, account: int, source: string, triggers: seq<string>, build: Build)
    requires v.status == Published && v.content.Yarn? && build.program.Some?
    ensures
      var copied := After(Stage(slug, 1, map[], [v]), CreateOp(account, 1));
      var saved := After(copied, SaveOp(account, 2, 1, source, triggers, build));
      var submitted := After(saved, SubmitOp(account, 2, build.compiler, build.schema));
      var edited := v.(content := Yarn(source, triggers), build := build, revision := 2, basedOn := Some(1));
      After(submitted, PublishOp(true, 2, Ok(true)))
      == Stage(slug, 2, map[account := Editor], [v.(status := Superseded), edited])
  {
    var copied := After(Stage(slug, 1, map[], [v]), CreateOp(account, 1));
    var copy := v.(status := Draft, revision := 1, basedOn := Some(1));
    assert copied == Stage(slug, 1, map[account := Editor], [v, copy]);
    var saved := After(copied, SaveOp(account, 2, 1, source, triggers, build));
    var edited := copy.(content := Yarn(source, triggers), build := build, revision := 2);
    assert saved == Stage(slug, 1, map[account := Editor], [v, edited]);
    var submitted := After(saved, SubmitOp(account, 2, build.compiler, build.schema));
    assert submitted == Stage(slug, 1, map[account := Editor], [v, edited.(status := Review)]);
    assert Supersede(submitted).value.versions == [v.(status := Superseded), edited.(status := Review)];
  }

  lemma FiveSteps(s: Script, a: Op, b: Op, c: Op, d: Op, e: Op)
    ensures AfterOps(s, [a, b, c, d, e]) == After(After(After(After(After(s, a), b), c), d), e)
  {
    assert [a, b, c, d, e][..4] == [a, b, c, d] && [a, b, c, d][..3] == [a, b, c] && [a, b, c][..2] == [a, b] && [a, b][..1] == [a];
    assert AfterOps(s, [a]) == After(s, a);
    assert AfterOps(s, [a, b]) == After(AfterOps(s, [a]), b);
    assert AfterOps(s, [a, b, c]) == After(AfterOps(s, [a, b]), c);
    assert AfterOps(s, [a, b, c, d]) == After(AfterOps(s, [a, b, c]), d);
  }

  lemma TheCopyIsPublished(slug: string, i: Import, account: int, source: string, triggers: seq<string>, build: Build)
    requires i.content.Yarn? && i.build.program.Some? && build.program.Some?
    ensures
      var v := Version(Published, i.content, i.build, 1, Some(i.content), i.provenance, None);
      var edited := v.(content := Yarn(source, triggers), build := build, revision := 2, basedOn := Some(1));
      EditedAndPublished(slug, i, account, source, triggers, build)
      == Stage(slug, 2, map[account := Editor], [v.(status := Superseded), edited])
  {
    FiveSteps(
      NewOfficial(slug), OfficialOp(i), CreateOp(account, 1), SaveOp(account, 2, 1, source, triggers, build),
      SubmitOp(account, 2, build.compiler, build.schema), PublishOp(true, 2, Ok(true)));
    FirstImport(slug, i);
    ReaderEdits(slug, Version(Published, i.content, i.build, 1, Some(i.content), i.provenance, None), account, source, triggers, build);
  }

  lemma CopyIsOrderly(slug: string, roles: map<int, Role>, old1: Version, new2: Version)
    requires old1.status == Superseded && new2.status == Published && old1.content.Yarn? && new2.content.Yarn?
    requires old1.build.program.Some? && new2.build.program.Some?
    ensures Orderly(Stage(slug, 2, roles, [old1, new2]))
  {
  }

  /**
   * An import after which a reader edits and publishes a copy leaves the edited text published when it is
   * repeated, if and only if the copy was built alike and names the same flags, actors, items and places.
   */
  lemma RepeatedImportLeavesAnEditedCopy(slug: string, i: Import, account: int, source: string, triggers: seq<string>, build: Build)
    requires i.content.Yarn? && i.build.program.Some? && build.program.Some? && Yarn(source, triggers) != i.content
    ensures
      var s := EditedAndPublished(slug, i, account, source, triggers, build);
      && ImportOfficial(s, i).Ok?
      && var t := ImportOfficial(s, i).value;
      && t.published.Some? && Has(t, t.published.value)
      && At(t, t.published.value).content
        == if build.compiler == i.build.compiler && build.schema == i.build.schema && build.identifiers == i.build.identifiers
           then Yarn(source, triggers) else i.content
  {
    TheCopyIsPublished(slug, i, account, source, triggers, build);
    var s := EditedAndPublished(slug, i, account, source, triggers, build);
    CopyIsOrderly(slug, s.roles, s.versions[0], s.versions[1]);
    ImportPublishesTheContentUnlessTheHashIsStale(s, i);
  }
}
