/** Safety of every behaviour of the promotion protocol, and recovery of an interrupted swap. */
module PromotionTheorems {
  import opened Wrappers
  import opened Digest
  import opened Promotion
  import opened PromotionSafety

  lemma {:induction false} Reachable(c: Config, states: seq<State>, steps: seq<Step>, k: nat)
    requires Behaviour(c, states, steps) && k < |states|
    ensures Inv(c, states[k])
  {
    if k == 0 {
      InitialInv(c, states[0]);
    } else {
      Reachable(c, states, steps, k - 1);
      assert Link(c, states, steps, k - 1);
      StepInv(c, states[k - 1], steps[k - 1], states[k]);
    }
  }

  // --- Safety ---

  // The live table is never partial or unverified: in every reachable state it is the original
  // table, or it holds all rows of some run, with the digests and row count its manifest declares.
  lemma LiveIsOriginalOrVerified(c: Config, states: seq<State>, steps: seq<Step>, k: nat)
    requires Behaviour(c, states, steps) && k < |states| && Live in states[k].catalog
    ensures var live := states[k].catalog[Live];
            || c.original == Some(live)
            || exists r :: r in c.manifests && live == BaseTable(AllRows(c.manifests[r].chunks), Some(r))
                           && c.summarize(live.rows) == c.manifests[r].summary
  {
    Reachable(c, states, steps, k);
  }

  // Once there is a live table, there always is one: no step, and no crash, removes the name.
  lemma {:induction false} LiveNeverDisappears(c: Config, states: seq<State>, steps: seq<Step>, j: nat, k: nat)
    requires Behaviour(c, states, steps) && j <= k < |states| && Live in states[j].catalog
    ensures Live in states[k].catalog
  {
    if j < k {
      LiveNeverDisappears(c, states, steps, j, k - 1);
      assert Link(c, states, steps, k - 1);
      StepKeepsLive(c, states[k - 1], steps[k - 1], states[k]);
    }
  }

  lemma StepKeepsLive(c: Config, s: State, step: Step, s': State)
    requires Apply(c, s, step) == Some(s') && Live in s.catalog
    ensures Live in s'.catalog
  {
  }

  // The content of the latest version, or the original content while there is none, is never
  // lost: it is live, or it is kept as the backup of a run that is not finalized.
  lemma CurrentContentSurvives(c: Config, states: seq<State>, steps: seq<Step>, k: nat)
    requires Behaviour(c, states, steps) && k < |states|
    requires states[k].versions != [] || c.original.Some?
    ensures exists n: Name :: IsCurrent(c, states[k], n) && (n.Live? || (n.Backup? && n.run !in VersionRuns(states[k])))
  {
    Reachable(c, states, steps, k);
    var n :| Keeps(c, states[k], n);
    assert IsCurrent(c, states[k], n);
  }

  // --- Versions ---

  function NetChanges(versions: seq<Version>): int {
    if versions == [] then 0
    else
      var last := versions[|versions| - 1];
      NetChanges(versions[..|versions| - 1]) + (if last.netChange.Some? then last.netChange.value else 0)
  }

  lemma {:induction false} RowCountsTelescope(c: Config, versions: seq<Version>)
    requires ChainOk(c, versions) && versions != []
    ensures versions[|versions| - 1].rowCount == versions[0].rowCount + NetChanges(versions)
  {
    var n := |versions| - 1;
    assert LinkOk(c, versions, n);
    if n > 0 {
      ChainPrefix(c, versions, n);
      RowCountsTelescope(c, versions[..n]);
    } else {
      assert versions[..0] == [];
    }
  }

  // table_versions in every reachable state: strictly increasing source times, an unbroken chain
  // of predecessors, and row counts that add up from the first version to the latest.
  lemma VersionHistory(c: Config, states: seq<State>, steps: seq<Step>, k: nat)
    requires Behaviour(c, states, steps) && k < |states|
    ensures var vs := states[k].versions;
            && (forall i, j :: 0 <= i < j < |vs| ==> vs[i].createdAt < vs[j].createdAt && vs[i].run != vs[j].run)
            && (forall i :: 0 < i < |vs| ==> vs[i].previous == Some(vs[i - 1].run))
            && (vs != [] ==> vs[0].previous == None)
            && (vs != [] ==> Latest(vs) == Some(vs[|vs| - 1]))
            && (vs != [] ==> vs[|vs| - 1].rowCount == vs[0].rowCount + NetChanges(vs))
  {
    Reachable(c, states, steps, k);
    var vs := states[k].versions;
    LatestIsLast(c, vs);
    if vs != [] {
      RowCountsTelescope(c, vs);
      assert LinkOk(c, vs, 0);
    }
    forall i | 0 < i < |vs|
      ensures vs[i].previous == Some(vs[i - 1].run)
    {
      assert LinkOk(c, vs, i);
    }
    forall i, j | 0 <= i < j < |vs|
      ensures vs[i].createdAt < vs[j].createdAt && vs[i].run != vs[j].run
    {
      ChainIncreases(c, vs, i, j);
      assert LinkOk(c, vs, i) && LinkOk(c, vs, j);
    }
  }

  // Versions are only ever added, one at a time, by the step that marks their run VERIFIED.
  lemma VersionsOnlyGrow(c: Config, s: State, step: Step, s': State)
    requires Apply(c, s, step) == Some(s') && s'.versions != s.versions
    ensures step == STATEMENT(FINALIZE)
    ensures exists v :: s'.versions == s.versions + [v] && v.run in s'.runs && s'.runs[v.run].status == VERIFIED
  {
    var v := NewVersion(c, s, s.pc.run);
    if step.STATEMENT? {
      OnlyFinalizeAddsVersions(c, s, step.op, s');
      assert s'.versions == s.versions + [v];
    }
  }

  lemma OnlyFinalizeAddsVersions(c: Config, s: State, op: Op, s': State)
    requires Running(c, s) && Execute(c, s, op) == Some(s') && s'.versions != s.versions
    ensures op.FINALIZE? && s'.versions == s.versions + [NewVersion(c, s, s.pc.run)]
    ensures s.pc.run in s'.runs && s'.runs[s.pc.run].status == VERIFIED
  {
  }

  // A rename into live is by a run newer than the latest version, or by that version's own run.
  lemma RenamesFollowVersionOrder(c: Config, s: State, s': State)
    requires Inv(c, s) && Apply(c, s, STATEMENT(RENAME)) == Some(s')
    ensures var r, latest := s.pc.run, Latest(s.versions);
            latest.None? || latest.value.run == r || latest.value.createdAt < c.manifests[r].createdAt
  {
  }

  // The live table has the content of the latest version, unless it is the staging table of a
  // run that was renamed but not finalized.
  lemma LiveMatchesLatest(c: Config, states: seq<State>, steps: seq<Step>, k: nat)
    requires Behaviour(c, states, steps) && k < |states| && states[k].versions != []
    ensures IsCurrent(c, states[k], Live) || LiveUnfinalized(states[k])
  {
    Reachable(c, states, steps, k);
  }

  // --- Import ---

  // However often a chunk is retried, it takes effect once: in every reachable state the staging
  // table holds the rows of the chunks marked IMPORTED, and all rows once the run is past import.
  lemma ChunksTakeEffectOnce(c: Config, states: seq<State>, steps: seq<Step>, k: nat, r: RunId)
    requires Behaviour(c, states, steps) && k < |states| && r in states[k].runs
    ensures r in c.manifests
    ensures var s, row, m := states[k], states[k].runs[r], c.manifests[r];
            && |row.chunks| == |m.chunks|
            && (Staging(r) in s.catalog ==> s.catalog[Staging(r)].BaseTable? && s.catalog[Staging(r)].rows == ImportedRows(m, row.chunks))
            && (PastImport(row.status) ==> AllImported(row.chunks) && ImportedTotal(row.chunks) == m.rowCount)
            && (PastImport(row.status) && Staging(r) in s.catalog ==> s.catalog[Staging(r)].rows == AllRows(m.chunks))
  {
    Reachable(c, states, steps, k);
    var s, row, m := states[k], states[k].runs[r], c.manifests[r];
    assert RunOk(c, r, row) && StagingOk(c, s, r);
    if AllImported(row.chunks) {
      ImportedIsAll(m, row.chunks);
      assert m.chunks[..|row.chunks|] == m.chunks;
    }
  }

  // A run is rejected as a mismatch exactly when its rows differ from its manifest.
  lemma MismatchExactlyIfContentDiffers(c: Config, s: State, s': State)
    requires Inv(c, s) && Apply(c, s, STATEMENT(RECORD_VERIFICATION)) == Some(s')
    ensures s'.runs[s.pc.run].status == MISMATCH <==> !Faithful(c, c.manifests[s.pc.run])
  {
  }

  // --- Final statuses ---

  // VERIFIED, MISMATCH and SUPERSEDED are left only when a statement of the same run fails after
  // they were recorded, and then always.
  lemma FinalExactlyUnlessCleanupFails(c: Config, s: State, step: Step, s': State, r: RunId)
    requires PcOk(c, s) && Apply(c, s, step) == Some(s')
    requires r in s.runs && s.runs[r].status in {VERIFIED, MISMATCH, SUPERSEDED}
    ensures r in s'.runs
    ensures s'.runs[r].status == s.runs[r].status <==> !(step.FAIL? && s.pc.run == r)
  {
    if step.STATEMENT? {
      StatementKeepsFinal(c, s, step.op, s', r);
    }
  }

  lemma StatementKeepsFinal(c: Config, s: State, op: Op, s': State, r: RunId)
    requires PcOk(c, s) && Running(c, s) && Execute(c, s, op) == Some(s')
    requires r in s.runs && s.runs[r].status in {VERIFIED, MISMATCH, SUPERSEDED}
    ensures r in s'.runs && s'.runs[r].status == s.runs[r].status
  {
  }

  // What a final status tells: the version is recorded, the content differs from the manifest, or
  // the run was once found older than the latest version.
  ghost predicate Recorded(c: Config, s: State) {
    forall r :: r in s.runs && r in c.manifests ==>
      && (s.runs[r].status == VERIFIED ==> r in VersionRuns(s))
      && (s.runs[r].status == MISMATCH ==> !Faithful(c, c.manifests[r]))
      && (s.runs[r].status == SUPERSEDED ==> r in s.superseded)
  }

  lemma {:induction false} FinalStatusRecorded(c: Config, states: seq<State>, steps: seq<Step>, k: nat)
    requires Behaviour(c, states, steps) && k < |states|
    ensures Recorded(c, states[k])
  {
    if k > 0 {
      FinalStatusRecorded(c, states, steps, k - 1);
      Reachable(c, states, steps, k - 1);
      assert Link(c, states, steps, k - 1);
      RecordedStep(c, states[k - 1], steps[k - 1], states[k]);
    }
  }

  lemma RecordedStep(c: Config, s: State, step: Step, s': State)
    requires Inv(c, s) && Recorded(c, s) && Apply(c, s, step) == Some(s')
    ensures Recorded(c, s')
  {
    if step.STATEMENT? {
      RecordedStatement(c, s, step.op, s');
    } else {
      RecordedOther(c, s, step, s');
    }
  }

  lemma RecordedOther(c: Config, s: State, step: Step, s': State)
    requires Recorded(c, s) && !step.STATEMENT? && Apply(c, s, step) == Some(s')
    ensures Recorded(c, s')
  {
    assert s'.versions == s.versions;
  }

  lemma RecordedStatement(c: Config, s: State, op: Op, s': State)
    requires PcOk(c, s) && ChainOk(c, s.versions) && Recorded(c, s) && Running(c, s) && Execute(c, s, op) == Some(s')
    ensures Recorded(c, s')
  {
    if op.FINALIZE? {
      FinalizeRecorded(c, s, s');
    } else {
      assert s'.versions == s.versions;
      assert VersionRuns(s') == VersionRuns(s);
    }
  }

  lemma FinalizeRecorded(c: Config, s: State, s': State)
    requires ChainOk(c, s.versions) && Recorded(c, s) && Running(c, s) && s.pc.point.Renamed? && Finalize(c, s) == Some(s')
    ensures Recorded(c, s')
  {
    LatestIsLast(c, s.versions);
    assert s.versions <= s'.versions;
    var n := |s'.versions| - 1;
    assert s'.versions[n].run == s.pc.run;
    forall r | r in VersionRuns(s)
      ensures r in VersionRuns(s')
    {
      var i :| 0 <= i < |s.versions| && s.versions[i].run == r;
      assert s'.versions[i].run == r;
    }
  }

  // --- What the tables tell about an interrupted rename ---

  // A persisted swap intent, or one that is about to be written back.
  predicate Intends(s: State, r: RunId) {
    && r in s.runs && r !in s.superseded && r !in VersionRuns(s)
    && (s.runs[r].status == SWAPPING || (s.pc.At? && s.pc.run == r && s.pc.point.Restored?))
  }

  // The staging table is where it was, and so is what it replaces, or the rename happened.
  predicate IntentOk(s: State, r: RunId) {
    Intends(s, r) ==>
      && s.runs[r].targetExisted.Some?
      && (s.runs[r].targetExisted == Some(true) ==> IsTable(s, Live) && (Backup(r) in s.catalog <==> Staging(r) !in s.catalog))
      && (Staging(r) !in s.catalog ==> r in s.swaps && IsTable(s, Live))
  }

  ghost predicate IntentsOk(s: State) {
    && (forall r :: IntentOk(s, r))
    && (forall r :: r in s.swaps ==> s.swaps[r] > 0)
  }

  lemma RenameKeepsIntents(c: Config, s: State, s': State)
    requires RunsOk(c, s) && CatalogOk(c, s) && IntentsOk(s) && Running(c, s) && s.pc.point.Prepared? && Rename(s) == Some(s')
    ensures IntentsOk(s')
  {
    assert RunOk(c, s.pc.run, s.runs[s.pc.run]) && StagingOk(c, s, s.pc.run);
    assert VersionRuns(s') == VersionRuns(s);
    forall q
      ensures IntentOk(s', q)
    {
      assert IntentOk(s, q);
    }
  }

  // What the tables tell about other runs is untouched by an operation that renames nothing.
  ghost predicate KeepsTables(s: State, s': State) {
    && s.pc.At? && s'.pc.At? && s'.pc.run == s.pc.run && s'.swaps == s.swaps && s.superseded <= s'.superseded
    && VersionRuns(s) <= VersionRuns(s')
    && (forall q :: q != s.pc.run && q in s'.runs ==> q in s.runs && s'.runs[q] == s.runs[q])
    && (forall n :: n != Staging(s.pc.run) ==> (n in s.catalog <==> n in s'.catalog) && (n in s.catalog ==> s'.catalog[n] == s.catalog[n]))
  }

  lemma OthersIntend(s: State, s': State, q: RunId)
    requires KeepsTables(s, s') && IntentOk(s, q) && q != s.pc.run
    ensures IntentOk(s', q)
  {
  }

  lemma StatementKeepsTables(c: Config, s: State, op: Op, s': State)
    requires Running(c, s) && !op.RENAME? && !op.FINALIZE? && Execute(c, s, op) == Some(s')
    ensures KeepsTables(s, s') && s'.versions == s.versions
  {
  }

  lemma OwnIntent(c: Config, s: State, op: Op, s': State)
    requires RunsOk(c, s) && PcOk(c, s) && CatalogOk(c, s) && OriginsOk(c, s)
    requires Running(c, s) && IntentOk(s, s.pc.run) && IsLateMove(op) && Execute(c, s, op) == Some(s')
    ensures IntentOk(s', s.pc.run)
  {
    assert RunOk(c, s.pc.run, s.runs[s.pc.run]) && StagingOk(c, s, s.pc.run);
  }

  lemma NoIntentYet(c: Config, s: State, op: Op, s': State)
    requires RunsOk(c, s) && PcOk(c, s) && CatalogOk(c, s)
    requires Running(c, s) && IntentOk(s, s.pc.run) && !IsLateMove(op) && !op.RENAME? && !op.FINALIZE? && Execute(c, s, op) == Some(s')
    ensures IntentOk(s', s.pc.run)
  {
  }

  lemma FinalizeKeepsIntents(c: Config, s: State, s': State)
    requires ChainOk(c, s.versions) && IntentsOk(s) && Running(c, s) && s.pc.point.Renamed? && Finalize(c, s) == Some(s')
    ensures IntentsOk(s')
  {
    assert s.versions <= s'.versions;
    assert VersionRuns(s) <= VersionRuns(s') by {
      forall r | r in VersionRuns(s)
        ensures r in VersionRuns(s')
      {
        var i :| 0 <= i < |s.versions| && s.versions[i].run == r;
        assert s'.versions[i].run == r;
      }
    }
    forall q
      ensures IntentOk(s', q)
    {
      assert IntentOk(s, q);
      if q != s.pc.run { OthersIntend(s, s', q); }
    }
  }

  lemma StatementKeepsIntents(c: Config, s: State, op: Op, s': State)
    requires RunsOk(c, s) && PcOk(c, s) && CatalogOk(c, s) && OriginsOk(c, s)
    requires IntentsOk(s) && Running(c, s) && !op.RENAME? && !op.FINALIZE? && Execute(c, s, op) == Some(s')
    ensures IntentsOk(s')
  {
    StatementKeepsTables(c, s, op, s');
    forall q
      ensures IntentOk(s', q)
    {
      assert IntentOk(s, q);
      if q != s.pc.run { OthersIntend(s, s', q); }
      else if IsLateMove(op) { OwnIntent(c, s, op, s'); }
      else { NoIntentYet(c, s, op, s'); }
    }
  }

  lemma StepKeepsIntents(c: Config, s: State, step: Step, s': State)
    requires Inv(c, s) && IntentsOk(s) && Apply(c, s, step) == Some(s')
    ensures IntentsOk(s')
  {
    if step.STATEMENT? {
      if step.op.RENAME? { RenameKeepsIntents(c, s, s'); }
      else if step.op.FINALIZE? { FinalizeKeepsIntents(c, s, s'); }
      else { StatementKeepsIntents(c, s, step.op, s'); }
    } else {
      OtherKeepsIntents(c, s, step, s');
    }
  }

  lemma OtherKeepsIntents(c: Config, s: State, step: Step, s': State)
    requires CatalogOk(c, s) && IntentsOk(s) && !step.STATEMENT? && Apply(c, s, step) == Some(s')
    ensures IntentsOk(s')
  {
    assert VersionRuns(s') == VersionRuns(s);
    forall q
      ensures IntentOk(s', q)
    {
      assert IntentOk(s, q) && StagingOk(c, s, q);
    }
  }

  lemma {:induction false} IntentsAlwaysOk(c: Config, states: seq<State>, steps: seq<Step>, k: nat)
    requires Behaviour(c, states, steps) && k < |states|
    ensures IntentsOk(states[k])
  {
    if k > 0 {
      IntentsAlwaysOk(c, states, steps, k - 1);
      Reachable(c, states, steps, k - 1);
      assert Link(c, states, steps, k - 1);
      StepKeepsIntents(c, states[k - 1], steps[k - 1], states[k]);
    }
  }

  // What an interrupted process left is told apart by the tables. Never do both answers hold.
  // Before the rename, the staging table has all rows of the run and the declared digest, and was
  // never renamed; after it, it was renamed, and once only if the run has chunks. There is no
  // answer exactly if a live table appeared where the run was to create the first one.
  lemma SwapStateMeans(c: Config, states: seq<State>, steps: seq<Step>, k: nat, r: RunId)
    requires Behaviour(c, states, steps) && k < |states| && r in states[k].runs && states[k].runs[r].status == SWAPPING
    ensures r in c.manifests
    ensures var s, m := states[k], c.manifests[r];
            && !(Before(s, r) && After(s, r))
            && (Before(s, r) ==> s.catalog[Staging(r)].rows == AllRows(m.chunks) && Matches(c, r, s.catalog[Staging(r)].rows))
            && (Before(s, r) && m.chunks != [] ==> Swaps(s, r) == 0)
            && (After(s, r) && r !in s.superseded && r !in VersionRuns(s) ==>
                  Swaps(s, r) > 0 && (m.chunks != [] ==> Swaps(s, r) == 1))
            && (r !in s.superseded && r !in VersionRuns(s) ==>
                  (!Before(s, r) && !After(s, r) <==>
                   s.runs[r].targetExisted == Some(false) && Staging(r) in s.catalog && Live in s.catalog))
  {
    var s := states[k];
    Reachable(c, states, steps, k);
    IntentsAlwaysOk(c, states, steps, k);
    ChunksTakeEffectOnce(c, states, steps, k, r);
    assert RunOk(c, r, s.runs[r]) && StagingOk(c, s, r) && BackupOk(s, r) && IntentOk(s, r);
    if Intends(s, r) && !s.runs[r].targetExisted.value {
      assert s.runs[r].targetExisted == Some(false);
    }
  }
}
