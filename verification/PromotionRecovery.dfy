/** What becomes of a run that is interrupted between the swap intent and its finalization. */
module PromotionRecovery {
  import opened Wrappers
  import opened Digest
  import opened Promotion
  import opened PromotionSafety

  // The run holds a persisted swap intent that its own rename, or no rename yet, has followed,
  // and no run promoted meanwhile overtook it.
  ghost predicate InSwap(c: Config, s: State, r: RunId) {
    && r in c.manifests && r in s.runs && s.runs[r].status == SWAPPING
    && r !in s.superseded && r !in VersionRuns(s)
    && MayPromote(c, s, r)
    && (|| (Before(s, r) && Backup(r) !in s.catalog && Swaps(s, r) == 0)
        || (After(s, r) && s.catalog[Live].origin == Some(r) && Swaps(s, r) == 1))
  }

  // Whoever holds the table lock; where a process recovering the run is, in step with the catalogue.
  ghost predicate Recovering(c: Config, s: State, r: RunId) {
    && InSwap(c, s, r)
    && (s.pc.At? && s.pc.run == r ==>
          match s.pc.point
          case Entered => true
          case Registered(firstTime) => !firstTime
          case Prepared(_) => Before(s, r)
          case Renamed(_) | RecoverAfter(_) => After(s, r)
          case _ => false)
  }

  // Between the two statements that record the verified live table and restore the intent.
  predicate InWindow(s: State, r: RunId) {
    s.pc.At? && s.pc.run == r && s.pc.point.Restored?
  }

  // The run is the latest version, and its staging table was renamed into live exactly once.
  ghost predicate Done(s: State, r: RunId) {
    && r in s.runs && s.runs[r].status == VERIFIED && LatestRun(s.versions) == Some(r) && Swaps(s, r) == 1
    && IsTable(s, Live) && s.catalog[Live].origin == Some(r)
  }

  // The window: intent and rename are both gone from the run's status, not from the catalogue.
  ghost predicate Restorable(c: Config, s: State, r: RunId) {
    && InWindow(s, r) && r in c.manifests && r in s.runs && s.runs[r].status == STAGED
    && r !in s.superseded && r !in VersionRuns(s) && MayPromote(c, s, r)
    && After(s, r) && s.catalog[Live].origin == Some(r) && Swaps(s, r) == 1
  }

  // --- How a run gets there ---

  lemma SwapIntentStartsSwap(c: Config, s: State, s': State)
    requires Inv(c, s) && Apply(c, s, STATEMENT(PREPARE_SWAPPING)) == Some(s')
    requires var r := s.pc.run; r !in s.superseded && r !in VersionRuns(s) && Swaps(s, r) == 0 && Backup(r) !in s.catalog
    ensures Recovering(c, s', s.pc.run)
  {
    var r := s.pc.run;
    assert StagingOk(c, s, r) && RunOk(c, r, s.runs[r]);
  }

  // --- What every step does to it ---

  // No other run is promoted, and the process does not stop inside the window. Other runs may take
  // the lock, be imported, fail, mismatch or be superseded.
  predicate KeepsSwap(s: State, step: Step, r: RunId) {
    && (step.STATEMENT? && s.pc.At? && s.pc.run != r ==> !step.op.RENAME? && !step.op.FINALIZE?)
    && !(InWindow(s, r) && (step.CRASH? || step.FAIL?))
  }

  ghost predicate Progress(c: Config, s: State, r: RunId) {
    Recovering(c, s, r) || Restorable(c, s, r) || Done(s, r)
  }

  lemma RecoveryOps(c: Config, s: State, op: Op, s': State, r: RunId)
    requires Recovering(c, s, r) && Running(c, s) && s.pc.run == r && Execute(c, s, op) == Some(s')
    ensures || (op.PROCEED? && s.pc.point.Registered?) || (op.RENAME? && s.pc.point.Prepared?)
            || (op.FINALIZE? && s.pc.point.Renamed?) || (op.RECORD_RECOVERED? && s.pc.point.RecoverAfter?)
  {
  }

  lemma ProceedRecovers(c: Config, s: State, s': State, r: RunId)
    requires Recovering(c, s, r) && Running(c, s) && s.pc.run == r && s.pc.point.Registered? && AtOrdering(s) && Proceed(c, s) == Some(s')
    ensures Recovering(c, s', r)
  {
  }

  lemma RenameRecovers(c: Config, s: State, s': State, r: RunId)
    requires CatalogOk(c, s) && RunsOk(c, s) && Recovering(c, s, r) && Running(c, s) && s.pc.run == r && s.pc.point.Prepared? && Rename(s) == Some(s')
    ensures Recovering(c, s', r)
  {
    assert StagingOk(c, s, r) && RunOk(c, r, s.runs[r]);
  }

  lemma FinalizeRecovers(c: Config, s: State, s': State, r: RunId)
    requires ChainOk(c, s.versions) && Recovering(c, s, r) && Running(c, s) && s.pc.run == r && s.pc.point.Renamed? && Finalize(c, s) == Some(s')
    ensures Done(s', r)
  {
    LatestIsLast(c, s.versions);
    assert s'.versions[..|s.versions|] == s.versions;
  }

  lemma RecoveryStatement(c: Config, s: State, op: Op, s': State, r: RunId)
    requires Inv(c, s) && Recovering(c, s, r) && Running(c, s) && s.pc.run == r && Execute(c, s, op) == Some(s')
    ensures Progress(c, s', r)
  {
    RecoveryOps(c, s, op, s', r);
    if op.PROCEED? { ProceedRecovers(c, s, s', r); }
    else if op.RENAME? { RenameRecovers(c, s, s', r); }
    else if op.FINALIZE? { FinalizeRecovers(c, s, s', r); }
  }

  lemma WindowStatement(c: Config, s: State, op: Op, s': State, r: RunId)
    requires Restorable(c, s, r) && Running(c, s) && Execute(c, s, op) == Some(s')
    ensures Progress(c, s', r)
  {
  }

  // What concerns the run is the same in both states.
  ghost predicate SameFor(s: State, s': State, r: RunId) {
    && (r in s'.runs <==> r in s.runs) && (r in s.runs ==> s'.runs[r] == s.runs[r])
    && (r in s'.superseded <==> r in s.superseded) && (r in s'.incoming <==> r in s.incoming)
    && s'.versions == s.versions && Swaps(s', r) == Swaps(s, r)
    && (forall n: Name :: n in {Live, Staging(r), Backup(r)} ==>
          (n in s'.catalog <==> n in s.catalog) && (n in s.catalog ==> s'.catalog[n] == s.catalog[n]))
  }

  // Other runs that are processed, but not promoted, leave the run alone.
  lemma OthersLeaveAlone(c: Config, s: State, op: Op, s': State, r: RunId)
    requires Running(c, s) && s.pc.run != r && Execute(c, s, op) == Some(s') && !op.RENAME? && !op.FINALIZE?
    ensures SameFor(s, s', r) && s'.pc.At? && s'.pc.run == s.pc.run
  {
  }

  lemma SwapUntouched(c: Config, s: State, s': State, r: RunId)
    requires InSwap(c, s, r) && SameFor(s, s', r)
    ensures InSwap(c, s', r)
  {
  }

  // Statements of processes that clean up other runs, locks taken, failures and crashes.
  lemma OtherStep(c: Config, s: State, step: Step, s': State, r: RunId)
    requires (Recovering(c, s, r) || Restorable(c, s, r)) && Apply(c, s, step) == Some(s')
    requires !step.STATEMENT? && KeepsSwap(s, step, r)
    ensures Progress(c, s', r)
  {
  }

  lemma StepProgress(c: Config, s: State, step: Step, s': State, r: RunId)
    requires Inv(c, s) && (Recovering(c, s, r) || Restorable(c, s, r)) && Apply(c, s, step) == Some(s') && KeepsSwap(s, step, r)
    ensures Progress(c, s', r)
  {
    if !step.STATEMENT? {
      OtherStep(c, s, step, s', r);
    } else if s.pc.run != r {
      OthersLeaveAlone(c, s, step.op, s', r);
      SwapUntouched(c, s, s', r);
    } else if Recovering(c, s, r) {
      RecoveryStatement(c, s, step.op, s', r);
    } else {
      WindowStatement(c, s, step.op, s', r);
    }
  }
}
