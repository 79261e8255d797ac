/**
  A run of the source is completed by the next uninterrupted process, wherever its processing was
  interrupted before: during import, verification, the swap or an earlier recovery.
 */
module PromotionCompletion {
  import opened Wrappers
  import opened Digest
  import opened Promotion
  import opened PromotionSafety
  import opened PromotionRecovery

  // The chunks decode, and have as many rows as is declared for them and in total.
  predicate WellMade(m: Manifest) {
    && (forall i :: 0 <= i < |m.chunks| ==> m.chunks[i].wellFormed && |m.chunks[i].rows| == m.chunks[i].declared)
    && RowTotal(m.chunks) == m.rowCount
  }

  // A manifest the source produced: the digest of the rows is the one it declares, too.
  predicate Honest(c: Config, m: Manifest) {
    WellMade(m) && Faithful(c, m)
  }

  function RowTotal(chunks: seq<Chunk>): nat {
    if chunks == [] then 0 else RowTotal(chunks[..|chunks| - 1]) + |chunks[|chunks| - 1].rows|
  }

  lemma {:induction false} TotalOfImported(m: Manifest, rows: seq<ChunkRow>)
    requires |rows| <= |m.chunks| && AllImported(rows)
    requires forall i :: 0 <= i < |rows| ==> rows[i].rows == |m.chunks[i].rows|
    ensures ImportedTotal(rows) == RowTotal(m.chunks[..|rows|])
  {
    if rows != [] {
      var n := |rows| - 1;
      assert m.chunks[..n + 1][..n] == m.chunks[..n];
      TotalOfImported(m, rows[..n]);
    }
  }

  // The run has no swap intent yet and nothing stands in the way of its import: the live name is
  // free or a table, and its staging table is there if it needs it. Another run may hold the lock.
  ghost predicate Stageable(c: Config, s: State, r: RunId) {
    && r in c.manifests && Validated(c.manifests[r]) && WellMade(c.manifests[r])
    && r !in s.superseded && r !in VersionRuns(s)
    && (Live in s.catalog ==> IsTable(s, Live)) && Backup(r) !in s.catalog && Swaps(s, r) == 0
    && (r in s.runs ==>
          && s.runs[r].status in {VALIDATED, IMPORTING, FAILED, STAGED, VERIFYING}
          && (Staging(r) !in s.catalog ==> !AnyImported(s.runs[r].chunks) && s.runs[r].status !in {STAGED, VERIFYING}))
    && (s.pc.At? && s.pc.run == r ==> AtPreparation(s, r))
  }

  // Its content is that of its manifest, and it is newer than the latest version.
  ghost predicate Preparing(c: Config, s: State, r: RunId) {
    Stageable(c, s, r) && Honest(c, c.manifests[r]) && MayPromote(c, s, r)
  }

  predicate AtPreparation(s: State, r: RunId)
    requires s.pc.At?
  {
    match s.pc.point
    case Entered | Raising => true
    case Registered(firstTime) => r in s.runs && (firstTime ==> Staging(r) !in s.catalog)
    case Created | Loading(_) | ToVerify | Checking | Compared(_) | Matched | Ordered(_) => r in s.runs && Staging(r) in s.catalog
    case _ => false
  }

  // Nothing but its own processing separates the run from being VERIFIED.
  ghost predicate Working(c: Config, s: State, r: RunId) {
    r in s.incoming && (Preparing(c, s, r) || Recovering(c, s, r) || Restorable(c, s, r))
  }

  lemma FilesStay(c: Config, s: State, step: Step, s': State, r: RunId)
    requires Apply(c, s, step) == Some(s') && r in s.incoming && r !in VersionRuns(s) && r !in s.superseded
    ensures r in s'.incoming
  {
  }

  // --- What every step does to it ---

  lemma StagingStatement(c: Config, s: State, op: Op, s': State, r: RunId)
    requires PcOk(c, s) && RunsOk(c, s) && Stageable(c, s, r) && Running(c, s) && s.pc.run == r && Execute(c, s, op) == Some(s')
    requires s.pc.point.Registered? || s.pc.point.Created?
    ensures Stageable(c, s', r) && s'.versions == s.versions
  {
    assert RunOk(c, r, s.runs[r]);
  }

  lemma ImportStatement(c: Config, s: State, op: Op, s': State, r: RunId)
    requires PcOk(c, s) && RunsOk(c, s) && Stageable(c, s, r) && Running(c, s) && s.pc.run == r && Execute(c, s, op) == Some(s')
    requires s.pc.point.Loading?
    ensures Stageable(c, s', r) && s'.versions == s.versions
  {
    assert RunOk(c, r, s.runs[r]);
  }

  lemma CheckStatement(c: Config, s: State, op: Op, s': State, r: RunId)
    requires PcOk(c, s) && RunsOk(c, s) && CatalogOk(c, s) && Stageable(c, s, r) && Running(c, s) && s.pc.run == r && Execute(c, s, op) == Some(s')
    requires s.pc.point.ToVerify? || s.pc.point.Checking?
    ensures Stageable(c, s', r) && s'.versions == s.versions
  {
    StagingIsComplete(c, s, r);
  }

  lemma VerifyStatement(c: Config, s: State, op: Op, s': State, r: RunId)
    requires PcOk(c, s) && RunsOk(c, s) && CatalogOk(c, s) && Preparing(c, s, r) && Running(c, s) && s.pc.run == r && Execute(c, s, op) == Some(s')
    requires s.pc.point.Compared? || s.pc.point.Matched?
    ensures Preparing(c, s', r)
  {
    StagingIsComplete(c, s, r);
  }

  lemma SwapStatement(c: Config, s: State, op: Op, s': State, r: RunId)
    requires PcOk(c, s) && CatalogOk(c, s) && Preparing(c, s, r) && Running(c, s) && s.pc.run == r && Execute(c, s, op) == Some(s')
    requires s.pc.point.Ordered?
    ensures Recovering(c, s', r)
  {
    assert StagingOk(c, s, r);
  }

  lemma PreparingStatement(c: Config, s: State, op: Op, s': State, r: RunId)
    requires Inv(c, s) && Preparing(c, s, r) && Running(c, s) && s.pc.run == r && Execute(c, s, op) == Some(s')
    ensures Preparing(c, s', r) || Recovering(c, s', r)
  {
    if s.pc.point.Registered? || s.pc.point.Created? { StagingStatement(c, s, op, s', r); }
    else if s.pc.point.Loading? { ImportStatement(c, s, op, s', r); }
    else if s.pc.point.ToVerify? || s.pc.point.Checking? { CheckStatement(c, s, op, s', r); }
    else if s.pc.point.Ordered? { SwapStatement(c, s, op, s', r); }
    else { VerifyStatement(c, s, op, s', r); }
  }

  lemma PreparingOther(c: Config, s: State, step: Step, s': State, r: RunId)
    requires PcOk(c, s) && CatalogOk(c, s) && Stageable(c, s, r) && Apply(c, s, step) == Some(s')
    requires !step.STATEMENT? && KeepsSwap(s, step, r)
    ensures Stageable(c, s', r) && s'.versions == s.versions
  {
    assert StagingOk(c, s, r);
  }

  lemma StagingUntouched(c: Config, s: State, s': State, r: RunId)
    requires Stageable(c, s, r) && SameFor(s, s', r) && s.pc.At? && s.pc.run != r && s'.pc.At? && s'.pc.run != r
    ensures Stageable(c, s', r)
  {
  }

  lemma StepWorks(c: Config, s: State, step: Step, s': State, r: RunId)
    requires Inv(c, s) && Working(c, s, r) && Apply(c, s, step) == Some(s') && KeepsSwap(s, step, r)
    ensures Working(c, s', r) || Done(s', r)
  {
    FilesStay(c, s, step, s', r);
    if !Preparing(c, s, r) {
      StepProgress(c, s, step, s', r);
    } else if step.STATEMENT? && s.pc.run != r {
      OthersLeaveAlone(c, s, step.op, s', r);
      StagingUntouched(c, s, s', r);
    } else if step.STATEMENT? {
      PreparingStatement(c, s, step.op, s', r);
    } else {
      PreparingOther(c, s, step, s', r);
    }
  }

  // A stretch of a behaviour: any schedule of crashes, failures and retries of the run, with other
  // runs processed and cleaned up in between, but no other promotion and no stop inside the window.
  ghost predicate Stretch(c: Config, states: seq<State>, steps: seq<Step>, r: RunId) {
    && |states| == |steps| + 1
    && forall i :: 0 <= i < |steps| ==> StretchLink(c, states, steps, r, i)
  }

  ghost predicate StretchLink(c: Config, states: seq<State>, steps: seq<Step>, r: RunId, i: nat)
    requires i < |steps| < |states|
  {
    Link(c, states, steps, i) && KeepsSwap(states[i], steps[i], r)
  }

  ghost predicate DoneBy(states: seq<State>, k: nat, r: RunId) {
    exists j :: 0 <= j <= k && j < |states| && Done(states[j], r)
  }

  ghost predicate Survives(c: Config, states: seq<State>, r: RunId, k: nat)
    requires k < |states|
  {
    Inv(c, states[k]) && (DoneBy(states, k, r) || Working(c, states[k], r))
  }

  // However often its processing is interrupted, the run is VERIFIED or can still be completed.
  lemma {:induction false} WorkSurvivesInterruptions(c: Config, states: seq<State>, steps: seq<Step>, r: RunId, k: nat)
    requires Stretch(c, states, steps, r) && k < |states| && Inv(c, states[0]) && Working(c, states[0], r)
    ensures Survives(c, states, r, k)
  {
    if k > 0 {
      WorkSurvivesInterruptions(c, states, steps, r, k - 1);
      SurvivesStep(c, states, steps, r, k - 1);
    }
  }

  lemma SurvivesStep(c: Config, states: seq<State>, steps: seq<Step>, r: RunId, i: nat)
    requires Stretch(c, states, steps, r) && i < |steps| && Survives(c, states, r, i)
    ensures Survives(c, states, r, i + 1)
  {
    StretchInv(c, states, steps, r, i);
    if DoneBy(states, i, r) {
      var j :| 0 <= j <= i && Done(states[j], r);
      assert DoneBy(states, i + 1, r);
    } else {
      StretchProgress(c, states, steps, r, i);
    }
  }

  lemma StretchInv(c: Config, states: seq<State>, steps: seq<Step>, r: RunId, i: nat)
    requires Stretch(c, states, steps, r) && i < |steps| && Inv(c, states[i])
    ensures Inv(c, states[i + 1])
  {
    assert StretchLink(c, states, steps, r, i);
    StepInv(c, states[i], steps[i], states[i + 1]);
  }

  lemma StretchProgress(c: Config, states: seq<State>, steps: seq<Step>, r: RunId, i: nat)
    requires Stretch(c, states, steps, r) && i < |steps| && Inv(c, states[i]) && Working(c, states[i], r)
    ensures Working(c, states[i + 1], r) || Done(states[i + 1], r)
  {
    assert StretchLink(c, states, steps, r, i);
    StepWorks(c, states[i], steps[i], states[i + 1], r);
  }
}
