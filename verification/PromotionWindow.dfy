/**
  The window of recovery: a process that stops between the two statements that record the verified
  live table and restore the swap intent. Exactly when this loses the run, and that it can happen.
 */
module PromotionWindow {
  import opened Wrappers
  import opened Digest
  import opened Promotion
  import opened PromotionSafety
  import opened PromotionTheorems
  import opened PromotionRecovery
  import opened PromotionCompletion
  import opened PromotionOutcome

  // --- Two ways in which a run is lost ---

  // The run needs its staging table, and will never get it back.
  predicate Lost(s: State, r: RunId) {
    && r in s.runs && s.runs[r].status in {STAGED, FAILED} && AnyImported(s.runs[r].chunks)
    && Staging(r) !in s.catalog && r !in VersionRuns(s)
    && (s.pc.At? && s.pc.run == r ==> s.pc.point.Entered? || s.pc.point == Registered(false))
  }

  // The name of its backup is taken, and will stay so: its swap is refused whenever it is tried.
  predicate Shut(s: State, r: RunId) {
    && r in s.runs && s.runs[r].status !in {SWAPPING, VERIFIED}
    && Live in s.catalog && Backup(r) in s.catalog && r !in VersionRuns(s)
    && (s.pc.At? && s.pc.run == r ==>
          !s.pc.point.Prepared? && !s.pc.point.Renamed? && !s.pc.point.RecoverAfter? && !s.pc.point.Restored?)
  }

  lemma StopInWindowLosesRun(c: Config, s: State, step: Step, s': State, r: RunId)
    requires RunsOk(c, s) && Restorable(c, s, r) && step in {CRASH, FAIL} && Apply(c, s, step) == Some(s')
    ensures c.manifests[r].chunks != [] ==> Lost(s', r)
    ensures s.runs[r].targetExisted == Some(true) ==> Shut(s', r)
  {
    assert RunOk(c, r, s.runs[r]);
    if c.manifests[r].chunks != [] {
      assert s.runs[r].chunks[0].IMPORTED?;
    }
  }

  lemma LostStatement(c: Config, s: State, op: Op, s': State, r: RunId)
    requires Lost(s, r) && Running(c, s) && Execute(c, s, op) == Some(s')
    ensures Lost(s', r)
  {
  }

  lemma ShutStatement(c: Config, s: State, op: Op, s': State, r: RunId)
    requires Shut(s, r) && Running(c, s) && Execute(c, s, op) == Some(s')
    ensures Shut(s', r)
  {
  }

  lemma LostStep(c: Config, s: State, step: Step, s': State, r: RunId)
    requires Apply(c, s, step) == Some(s')
    ensures Lost(s, r) ==> Lost(s', r)
    ensures Shut(s, r) ==> Shut(s', r)
  {
    if step.STATEMENT? {
      if Lost(s, r) { LostStatement(c, s, step.op, s', r); }
      if Shut(s, r) { ShutStatement(c, s, step.op, s', r); }
    }
  }

  // Whatever happens afterwards, such a run is never VERIFIED.
  lemma {:induction false} LostForever(c: Config, states: seq<State>, steps: seq<Step>, r: RunId, j: nat, k: nat)
    requires Path(c, states, steps) && j <= k < |states| && (Lost(states[j], r) || Shut(states[j], r))
    ensures Lost(states[k], r) || Shut(states[k], r)
    ensures r in states[k].runs && states[k].runs[r].status != VERIFIED
  {
    if j < k {
      LostForever(c, states, steps, r, j, k - 1);
      assert Link(c, states, steps, k - 1);
      LostStep(c, states[k - 1], steps[k - 1], states[k], r);
    }
  }

  // --- What else every behaviour keeps ---

  // A backup is kept by the run that replaced a live table, and the files of a run by the run that
  // was neither finalized nor superseded.
  ghost predicate Held(c: Config, s: State) {
    && BackupsHeld(s)
    && (forall r :: r in c.manifests && r !in VersionRuns(s) && r !in s.superseded ==> r in s.incoming)
  }

  lemma VersionRunsGrow(c: Config, s: State, step: Step, s': State, r: RunId)
    requires Apply(c, s, step) == Some(s') && r in VersionRuns(s)
    ensures r in VersionRuns(s')
  {
    var i :| 0 <= i < |s.versions| && s.versions[i].run == r;
    if s'.versions != s.versions {
      VersionsOnlyGrow(c, s, step, s');
      assert s'.versions[i] == s.versions[i];
    }
  }

  ghost predicate BackupsHeld(s: State) {
    forall r :: Backup(r) in s.catalog ==> r in s.runs && Live in s.catalog && s.runs[r].targetExisted == Some(true)
  }

  lemma RenameHolds(c: Config, s: State, s': State)
    requires RunsOk(c, s) && BackupsHeld(s) && Running(c, s) && s.pc.point.Prepared? && Rename(s) == Some(s')
    ensures BackupsHeld(s')
  {
    assert RunOk(c, s.pc.run, s.runs[s.pc.run]);
  }

  lemma OtherStatementHolds(c: Config, s: State, op: Op, s': State)
    requires RunsOk(c, s) && BackupsHeld(s) && Running(c, s) && Execute(c, s, op) == Some(s') && !op.RENAME?
    ensures BackupsHeld(s')
  {
    assert RunOk(c, s.pc.run, s.runs[s.pc.run]);
  }

  lemma StatementKeepsFiles(c: Config, s: State, op: Op, s': State)
    requires Running(c, s) && Execute(c, s, op) == Some(s')
    ensures s'.incoming == s.incoming && s.superseded <= s'.superseded
  {
  }

  lemma HeldStep(c: Config, s: State, step: Step, s': State)
    requires RunsOk(c, s) && Held(c, s) && Apply(c, s, step) == Some(s')
    ensures Held(c, s')
  {
    forall r | r in VersionRuns(s)
      ensures r in VersionRuns(s')
    {
      VersionRunsGrow(c, s, step, s', r);
    }
    if step.STATEMENT? {
      StatementKeepsFiles(c, s, step.op, s');
      if step.op.RENAME? { RenameHolds(c, s, s'); } else { OtherStatementHolds(c, s, step.op, s'); }
    }
  }

  lemma {:induction false} AlwaysHeld(c: Config, states: seq<State>, steps: seq<Step>, k: nat)
    requires Behaviour(c, states, steps) && k < |states|
    ensures Held(c, states[k])
  {
    if k > 0 {
      AlwaysHeld(c, states, steps, k - 1);
      Reachable(c, states, steps, k - 1);
      assert Link(c, states, steps, k - 1);
      HeldStep(c, states[k - 1], steps[k - 1], states[k]);
    }
  }

  // --- Paths ---

  lemma Extend(c: Config, states: seq<State>, steps: seq<Step>, step: Step) returns (states': seq<State>, steps': seq<Step>)
    requires Path(c, states, steps) && Apply(c, states[|steps|], step).Some?
    ensures Path(c, states', steps') && states <= states' && steps <= steps' && |steps'| == |steps| + 1
    ensures Apply(c, states[|steps|], step) == Some(states'[|steps'|]) && steps'[|steps|] == step
  {
    states', steps' := states + [Apply(c, states[|steps|], step).value], steps + [step];
    forall i | 0 <= i < |steps'|
      ensures Link(c, states', steps', i)
    {
      assert i < |steps| ==> Link(c, states, steps, i);
    }
  }

  // What an uninterrupted process makes of a state is reached by its statements.
  lemma {:induction false} OutcomeIsReached(c: Config, before: seq<State>, done: seq<Step>) returns (states: seq<State>, steps: seq<Step>)
    requires Path(c, before, done) && Inv(c, before[|done|]) && before[|done|].pc.At?
    ensures Path(c, states, steps) && before <= states && done <= steps
    ensures states[|steps|] == Outcome(c, before[|done|])
    decreases Remaining(c, before[|done|])
  {
    var s := before[|done|];
    if Release(s).Some? {
      states, steps := Extend(c, before, done, RELEASE);
    } else if s.pc.point.Raising? || Apply(c, s, NextStatement(c, s)).None? {
      states, steps := Extend(c, before, done, FAIL);
    } else {
      var next := Apply(c, s, NextStatement(c, s)).value;
      StepInv(c, s, NextStatement(c, s), next);
      StatementProgresses(c, s, next);
      states, steps := Extend(c, before, done, NextStatement(c, s));
      states, steps := OutcomeIsReached(c, states, steps);
    }
  }

  // A call of a process that takes the locks and is not interrupted.
  lemma CallIsReached(c: Config, before: seq<State>, done: seq<Step>, r: RunId) returns (states: seq<State>, steps: seq<Step>)
    requires Path(c, before, done) && Inv(c, before[|done|]) && Lock(c, before[|done|], r).Some?
    ensures Inv(c, before[|done|].(pc := At(r, Entered)))
    ensures Path(c, states, steps) && before <= states && done <= steps
    ensures states[|steps|] == Outcome(c, before[|done|].(pc := At(r, Entered)))
    ensures Inv(c, states[|steps|])
  {
    StepInv(c, before[|done|], LOCK(r), before[|done|].(pc := At(r, Entered)));
    states, steps := Extend(c, before, done, LOCK(r));
    var from := |steps|;
    states, steps := OutcomeIsReached(c, states, steps);
    PathInv(c, states, steps, from, |steps|);
  }

  lemma {:induction false} PathInv(c: Config, states: seq<State>, steps: seq<Step>, j: nat, k: nat)
    requires Path(c, states, steps) && j <= k < |states| && Inv(c, states[j])
    ensures Inv(c, states[k])
  {
    if j < k {
      PathInv(c, states, steps, j, k - 1);
      assert Link(c, states, steps, k - 1);
      StepInv(c, states[k - 1], steps[k - 1], states[k]);
    }
  }

  // --- A run without chunks that replaced no table is not lost ---

  // The number of renames is history only: the same statements lead to the same outcome.
  function Shift(s: State, r: RunId, n: nat): State {
    s.(swaps := s.swaps[r := Swaps(s, r) + n])
  }

  ghost predicate Shifts(next: Option<State>, shifted: Option<State>, r: RunId, n: nat) {
    if next.None? then shifted.None? else r in next.value.swaps && shifted == Some(Shift(next.value, r, n))
  }

  lemma EarlyMoveShifts(c: Config, s: State, op: Op, r: RunId, n: nat)
    requires r in s.swaps && Running(c, s) && IsEarlyMove(op)
    ensures Shifts(Execute(c, s, op), Execute(c, Shift(s, r, n), op), r, n)
  {
  }

  lemma LateMoveShifts(c: Config, s: State, op: Op, r: RunId, n: nat)
    requires r in s.swaps && Running(c, s) && IsLateMove(op)
    ensures Shifts(Execute(c, s, op), Execute(c, Shift(s, r, n), op), r, n)
  {
  }

  lemma ContentShifts(c: Config, s: State, op: Op, r: RunId, n: nat)
    requires r in s.swaps && Running(c, s) && op in {OPEN_STAGING, IMPORT_CHUNK, REJECT_CHUNK, FINALIZE}
    ensures Shifts(Execute(c, s, op), Execute(c, Shift(s, r, n), op), r, n)
  {
  }

  lemma RenameShifts(c: Config, s: State, r: RunId, n: nat)
    requires r in s.swaps && Running(c, s) && s.pc.point.Prepared?
    ensures Shifts(Rename(s), Rename(Shift(s, r, n)), r, n)
  {
    if Rename(s).Some? {
      assert Rename(Shift(s, r, n)).value.swaps == Shift(Rename(s).value, r, n).swaps;
    }
  }

  lemma StatementShifts(c: Config, s: State, op: Op, r: RunId, n: nat)
    requires r in s.swaps && Running(c, s)
    ensures Shifts(Execute(c, s, op), Execute(c, Shift(s, r, n), op), r, n)
  {
    if IsEarlyMove(op) { EarlyMoveShifts(c, s, op, r, n); }
    else if IsLateMove(op) { LateMoveShifts(c, s, op, r, n); }
    else if op == RENAME { if s.pc.point.Prepared? { RenameShifts(c, s, r, n); } }
    else { ContentShifts(c, s, op, r, n); }
  }

  lemma NextShifts(c: Config, s: State, r: RunId, n: nat)
    requires s.pc.At? && s.pc.run in c.manifests && (s.pc.point.Entered? || s.pc.run in s.runs)
    ensures NextStatement(c, Shift(s, r, n)) == NextStatement(c, s) && Remaining(c, Shift(s, r, n)) == Remaining(c, s)
    ensures Release(s).None? ==> Release(Shift(s, r, n)).None?
    ensures Release(s).Some? ==> Release(Shift(s, r, n)) == Some(Shift(Release(s).value, r, n))
    ensures Fail(Shift(s, r, n)) == Shift(Fail(s), r, n)
  {
  }

  lemma NextStepShifts(c: Config, s: State, r: RunId, n: nat)
    requires PcOk(c, s) && s.pc.At? && r in s.swaps && Release(s).None? && !s.pc.point.Raising?
    ensures Shifts(Apply(c, s, NextStatement(c, s)), Apply(c, Shift(s, r, n), NextStatement(c, s)), r, n)
  {
    if !s.pc.point.Entered? {
      StatementShifts(c, s, NextStatement(c, s).op, r, n);
    }
  }

  lemma {:induction false} OutcomeShifts(c: Config, s: State, r: RunId, n: nat)
    requires Inv(c, s) && s.pc.At? && r in s.swaps && Inv(c, Shift(s, r, n))
    ensures r in Outcome(c, s).swaps && Outcome(c, Shift(s, r, n)) == Shift(Outcome(c, s), r, n)
    decreases Remaining(c, s)
  {
    NextShifts(c, s, r, n);
    if Release(s).None? && !s.pc.point.Raising? {
      NextStepShifts(c, s, r, n);
      var step := NextStatement(c, s);
      var next := Apply(c, s, step);
      if next.Some? {
        StepInv(c, s, step, next.value);
        StepInv(c, Shift(s, r, n), step, Shift(next.value, r, n));
        StatementProgresses(c, s, next.value);
        OutcomeShifts(c, next.value, r, n);
      }
    }
  }

  lemma InvIgnoresSwaps(c: Config, s: State, r: RunId, n: nat)
    requires Inv(c, s) && r in c.manifests && c.manifests[r].chunks == [] && r in s.swaps
    ensures Inv(c, s.(swaps := s.swaps[r := n]))
  {
    var t := s.(swaps := s.swaps[r := n]);
    forall q
      ensures StagingOk(c, t, q) && BackupOk(t, q)
    {
      assert StagingOk(c, s, q) && BackupOk(s, q);
    }
    assert Conserved(c, t) by {
      if !(s.versions == [] && c.original.None?) {
        var n :| Keeps(c, s, n);
        assert Keeps(c, t, n);
      }
    }
  }

  // The stopped run, once it is FAILED, is imported anew and renamed once more.
  lemma EmptyRunVerifies(c: Config, s: State, r: RunId)
    requires Inv(c, s) && Held(c, s) && s.pc == At(r, Entered) && r in c.manifests && c.manifests[r].chunks == []
    requires Honest(c, c.manifests[r]) && MayPromote(c, s, r) && r !in s.superseded && r !in VersionRuns(s)
    requires r in s.runs && s.runs[r].status == FAILED && s.runs[r].targetExisted == Some(false)
    requires Staging(r) !in s.catalog && IsTable(s, Live) && r in s.swaps
    ensures var o := Outcome(c, s); r in o.runs && o.runs[r].status == VERIFIED && Swaps(o, r) == Swaps(s, r) + 1
  {
    var n, s0 := Swaps(s, r), s.(swaps := s.swaps[r := 0]);
    InvIgnoresSwaps(c, s, r, 0);
    assert RunOk(c, r, s.runs[r]);
    assert Shift(s0, r, n) == s by { assert s0.swaps[r := n] == s.swaps; }
    UninterruptedProcessVerifies(c, s0, r);
    OutcomeShifts(c, s0, r, n);
  }

  // A run that is STAGED without a staging table fails.
  lemma StagedRunFails(c: Config, s: State, r: RunId)
    requires Inv(c, s) && s.pc == At(r, Entered) && r in s.runs && s.runs[r].status == STAGED && Staging(r) !in s.catalog
    ensures Outcome(c, s) == s.(runs := s.runs[r := s.runs[r].(status := FAILED)], pc := Idle)
  {
    var next := s.(pc := At(r, Registered(false)));
    StepInv(c, s, REGISTER, next);
    assert Apply(c, next, STATEMENT(RESUME)).None?;
  }

  ghost predicate VerifiedAfter(c: Config, s: State, r: RunId, states: seq<State>, steps: seq<Step>) {
    Path(c, states, steps) && states[0] == s && r in states[|steps|].runs && states[|steps|].runs[r].status == VERIFIED
  }

  ghost predicate CanBeVerified(c: Config, s: State, r: RunId) {
    exists states, steps :: VerifiedAfter(c, s, r, states, steps)
  }

  // What is left of a run without chunks after the stop: it can be tried again.
  ghost predicate Retryable(c: Config, s: State, r: RunId) {
    && Inv(c, s) && Held(c, s) && s.pc.Idle? && r in c.manifests && c.manifests[r].chunks == []
    && Honest(c, c.manifests[r]) && MayPromote(c, s, r) && r !in s.superseded && r !in VersionRuns(s)
    && r in s.runs && s.runs[r].targetExisted == Some(false)
    && Staging(r) !in s.catalog && IsTable(s, Live) && r in s.swaps
  }

  lemma EmptyRunRetryable(c: Config, s: State, step: Step, s': State, r: RunId)
    requires Inv(c, s) && Held(c, s) && Restorable(c, s, r) && step in {CRASH, FAIL} && Apply(c, s, step) == Some(s')
    requires c.manifests[r].chunks == [] && s.runs[r].targetExisted == Some(false)
    ensures Retryable(c, s', r) && s'.runs[r].status in {STAGED, FAILED}
  {
    assert RunOk(c, r, s.runs[r]);
    assert Honest(c, c.manifests[r]);
    StepInv(c, s, step, s');
    HeldStep(c, s, step, s');
  }

  // Two more calls at most verify it.
  lemma RetryVerifies(c: Config, before: seq<State>, done: seq<Step>, r: RunId) returns (states: seq<State>, steps: seq<Step>)
    requires Path(c, before, done)
    requires var s := before[|done|]; Retryable(c, s, r) && s.runs[r].status == FAILED
    ensures Path(c, states, steps) && before <= states && r in states[|steps|].runs && states[|steps|].runs[r].status == VERIFIED
    ensures Swaps(states[|steps|], r) == Swaps(before[|done|], r) + 1
  {
    var s := before[|done|];
    assert RunOk(c, r, s.runs[r]);
    StepInv(c, s, LOCK(r), s.(pc := At(r, Entered)));
    EmptyRunVerifies(c, s.(pc := At(r, Entered)), r);
    states, steps := CallIsReached(c, before, done, r);
  }

  lemma FailsFirst(c: Config, before: seq<State>, done: seq<Step>, r: RunId) returns (states: seq<State>, steps: seq<Step>)
    requires Path(c, before, done)
    requires var s := before[|done|]; Retryable(c, s, r) && s.runs[r].status == STAGED
    ensures Path(c, states, steps) && before <= states
    ensures var s := states[|steps|]; Retryable(c, s, r) && s.runs[r].status == FAILED && Swaps(s, r) == Swaps(before[|done|], r)
  {
    var s := before[|done|];
    assert RunOk(c, r, s.runs[r]);
    StepInv(c, s, LOCK(r), s.(pc := At(r, Entered)));
    StagedRunFails(c, s.(pc := At(r, Entered)), r);
    states, steps := CallIsReached(c, before, done, r);
  }

  // The run without chunks is renamed twice then, and VERIFIED.
  lemma EmptyRunRecovers(c: Config, s: State, step: Step, s': State, r: RunId)
    requires Inv(c, s) && Held(c, s) && Restorable(c, s, r) && step in {CRASH, FAIL} && Apply(c, s, step) == Some(s')
    requires c.manifests[r].chunks == [] && s.runs[r].targetExisted == Some(false)
    ensures CanBeVerified(c, s', r)
  {
    EmptyRunRetryable(c, s, step, s', r);
    var states, steps := [s'], [];
    if s'.runs[r].status == STAGED {
      states, steps := FailsFirst(c, states, steps, r);
    }
    states, steps := RetryVerifies(c, states, steps, r);
    assert VerifiedAfter(c, s', r, states, steps);
  }

  // A stop in the window loses a run for good exactly if it has chunks or replaced a table.
  lemma WindowLosesExactly(c: Config, states: seq<State>, steps: seq<Step>, k: nat, r: RunId)
    requires Behaviour(c, states, steps) && k < |steps| && Restorable(c, states[k], r) && steps[k] in {CRASH, FAIL}
    ensures !CanBeVerified(c, states[k + 1], r) <==>
              c.manifests[r].chunks != [] || states[k].runs[r].targetExisted == Some(true)
  {
    Reachable(c, states, steps, k);
    AlwaysHeld(c, states, steps, k);
    assert Link(c, states, steps, k);
    var s, s' := states[k], states[k + 1];
    if c.manifests[r].chunks != [] || s.runs[r].targetExisted == Some(true) {
      StopInWindowLosesRun(c, s, steps[k], s', r);
      if CanBeVerified(c, s', r) {
        var more, done :| VerifiedAfter(c, s', r, more, done);
        LostForever(c, more, done, r, 0, |done|);
      }
    } else {
      EmptyRunRecovers(c, s, steps[k], s', r);
    }
  }

  // --- The window can be reached ---

  // Where the first promotion of a run stands: whether it will replace a table.
  ghost predicate Foresees(s: State, r: RunId, hadTable: bool) {
    s.pc.At? && s.pc.run == r
    && if s.pc.point.Prepared? || s.pc.point.Renamed? then r in s.runs && s.runs[r].targetExisted == Some(hadTable)
       else (Live in s.catalog <==> hadTable) && !s.pc.point.RecoverAfter? && !s.pc.point.Restored? && !s.pc.point.Returning?
  }

  lemma ForeseesStaging(c: Config, s: State, r: RunId, hadTable: bool, next: State)
    requires PcOk(c, s) && Preparing(c, s, r) && Foresees(s, r, hadTable) && Succeeds(c, s)
    requires s.pc.point.Entered? || s.pc.point.Registered? || s.pc.point.Created?
    requires next == Apply(c, s, NextStatement(c, s)).value && next.pc.At? && next.pc.run == r
    ensures Foresees(next, r, hadTable)
  {
  }

  lemma ForeseesImport(c: Config, s: State, r: RunId, hadTable: bool, next: State)
    requires PcOk(c, s) && Preparing(c, s, r) && Foresees(s, r, hadTable) && Succeeds(c, s)
    requires s.pc.point.Loading? || s.pc.point.ToVerify? || s.pc.point.Checking? || s.pc.point.Compared?
    requires next == Apply(c, s, NextStatement(c, s)).value && next.pc.At? && next.pc.run == r
    ensures Foresees(next, r, hadTable)
  {
  }

  lemma ForeseesEarly(c: Config, s: State, r: RunId, hadTable: bool, next: State)
    requires PcOk(c, s) && Preparing(c, s, r) && Foresees(s, r, hadTable) && IsEarly(s.pc.point) && Succeeds(c, s)
    requires next == Apply(c, s, NextStatement(c, s)).value && next.pc.At? && next.pc.run == r
    ensures Foresees(next, r, hadTable)
  {
    if s.pc.point.Entered? || s.pc.point.Registered? || s.pc.point.Created? {
      ForeseesStaging(c, s, r, hadTable, next);
    } else {
      ForeseesImport(c, s, r, hadTable, next);
    }
  }

  lemma ForeseesLate(c: Config, s: State, r: RunId, hadTable: bool, next: State)
    requires PcOk(c, s) && Preparing(c, s, r) && Foresees(s, r, hadTable) && !IsEarly(s.pc.point) && Succeeds(c, s)
    requires next == Apply(c, s, NextStatement(c, s)).value && next.pc.At? && next.pc.run == r
    ensures Foresees(next, r, hadTable)
  {
  }

  lemma ForeseesRename(c: Config, s: State, r: RunId, hadTable: bool, next: State)
    requires PcOk(c, s) && Recovering(c, s, r) && Foresees(s, r, hadTable) && Succeeds(c, s) && s.pc.point.Prepared?
    requires next == Apply(c, s, NextStatement(c, s)).value
    ensures Foresees(next, r, hadTable) && next.pc.point.Renamed?
  {
  }

  ghost predicate FirstTime(c: Config, s: State, r: RunId, hadTable: bool) {
    && Inv(c, s) && r in s.incoming && Foresees(s, r, hadTable) && !s.pc.point.Raising?
    && (Preparing(c, s, r) || (Recovering(c, s, r) && (s.pc.point.Prepared? || s.pc.point.Renamed?)))
  }

  lemma FirstTimeGoesOn(c: Config, s: State, r: RunId, hadTable: bool)
    requires FirstTime(c, s, r, hadTable) && !s.pc.point.Renamed?
    ensures Succeeds(c, s)
    ensures var next := Apply(c, s, NextStatement(c, s)).value;
            FirstTime(c, next, r, hadTable) && Remaining(c, next) < Remaining(c, s)
  {
    NextIsWorking(c, s, r);
    var next := Apply(c, s, NextStatement(c, s)).value;
    if Preparing(c, s, r) {
      if IsEarly(s.pc.point) { ForeseesEarly(c, s, r, hadTable, next); } else { ForeseesLate(c, s, r, hadTable, next); }
      StaysFirst(c, s, r, next);
    } else {
      ForeseesRename(c, s, r, hadTable, next);
    }
    FilesStay(c, s, NextStatement(c, s), next, r);
  }

  lemma StaysFirst(c: Config, s: State, r: RunId, next: State)
    requires Inv(c, s) && Preparing(c, s, r) && s.pc.At? && s.pc.run == r && !s.pc.point.Raising? && Succeeds(c, s)
    requires next == Apply(c, s, NextStatement(c, s)).value
    ensures Preparing(c, next, r) || (Recovering(c, next, r) && next.pc.At? && next.pc.point.Prepared?)
  {
    var step := NextStatement(c, s);
    if s.pc.point.Entered? { PreparingOther(c, s, step, next, r); }
    else if s.pc.point.Registered? || s.pc.point.Created? { StagingStatement(c, s, step.op, next, r); }
    else if s.pc.point.Loading? { ImportStatement(c, s, step.op, next, r); }
    else if s.pc.point.ToVerify? || s.pc.point.Checking? { CheckStatement(c, s, step.op, next, r); }
    else if s.pc.point.Ordered? { SwapStatement(c, s, step.op, next, r); IntentPrepares(c, s, next); }
    else { VerifyStatement(c, s, step.op, next, r); }
  }

  lemma IntentPrepares(c: Config, s: State, next: State)
    requires Apply(c, s, STATEMENT(PREPARE_SWAPPING)) == Some(next)
    ensures next.pc.At? && next.pc.point.Prepared?
  {
  }

  lemma {:induction false} RenameIsReached(c: Config, before: seq<State>, done: seq<Step>, r: RunId, hadTable: bool)
      returns (states: seq<State>, steps: seq<Step>)
    requires Path(c, before, done) && FirstTime(c, before[|done|], r, hadTable)
    ensures Path(c, states, steps) && before <= states
    ensures FirstTime(c, states[|steps|], r, hadTable) && states[|steps|].pc.point.Renamed?
    decreases Remaining(c, before[|done|])
  {
    states, steps := before, done;
    if !states[|steps|].pc.point.Renamed? {
      FirstTimeGoesOn(c, states[|steps|], r, hadTable);
      states, steps := Extend(c, states, steps, NextStatement(c, states[|steps|]));
      states, steps := RenameIsReached(c, states, steps, r, hadTable);
    }
  }

  // A new database with an honest run, and no table or a table in its place.
  ghost predicate NewDatabase(c: Config, r: RunId) {
    && r in c.manifests && Validated(c.manifests[r]) && Honest(c, c.manifests[r])
    && (c.original.Some? ==> c.original.value.BaseTable? && c.original.value.origin.None?)
  }

  function InitialState(c: Config): State {
    State(if c.original.Some? then map[Live := c.original.value] else map[], map[], [], c.manifests.Keys, Idle, {}, map[])
  }

  lemma FirstRename(c: Config, r: RunId) returns (states: seq<State>, steps: seq<Step>)
    requires NewDatabase(c, r)
    ensures Path(c, states, steps) && Behaviour(c, states, steps)
    ensures FirstTime(c, states[|steps|], r, c.original.Some?) && states[|steps|].pc.point.Renamed?
  {
    states, steps := [InitialState(c)], [];
    InitialInv(c, states[0]);
    StepInv(c, states[0], LOCK(r), states[0].(pc := At(r, Entered)));
    states, steps := Extend(c, states, steps, LOCK(r));
    assert Preparing(c, states[|steps|], r);
    states, steps := RenameIsReached(c, states, steps, r, c.original.Some?);
    PathIsBehaviour(c, states, steps);
  }

  lemma PathIsBehaviour(c: Config, states: seq<State>, steps: seq<Step>)
    requires Path(c, states, steps) && Initial(c, states[0])
    ensures Behaviour(c, states, steps)
  {
    forall i | 0 <= i < |steps|
      ensures Link(c, states, steps, i)
    {
    }
  }

  // In every such database some behaviour reaches the window, with or without a table replaced,
  // and stops there.
  lemma WindowIsReachable(c: Config, r: RunId, stop: Step) returns (states: seq<State>, steps: seq<Step>)
    requires NewDatabase(c, r) && stop in {CRASH, FAIL}
    ensures Behaviour(c, states, steps) && steps != [] && steps[|steps| - 1] == stop
    ensures var s := states[|steps| - 1]; Restorable(c, s, r) && s.runs[r].targetExisted == Some(c.original.Some?)
  {
    states, steps := RecoveryIsReached(c, r);
    states, steps := WindowOpens(c, states, steps, r);
    states, steps := Extend(c, states, steps, stop);
    PathIsBehaviour(c, states, steps);
  }

  // The rename happened, the process crashed, and the next one found this out.
  ghost predicate RecoversFirst(c: Config, s: State, r: RunId, hadTable: bool) {
    && Recovering(c, s, r) && s.pc.At? && s.pc.run == r && s.pc.point.RecoverAfter? && After(s, r)
    && s.runs[r].targetExisted == Some(hadTable)
  }

  lemma RecoveryIsReached(c: Config, r: RunId) returns (states: seq<State>, steps: seq<Step>)
    requires NewDatabase(c, r)
    ensures Path(c, states, steps) && Initial(c, states[0]) && RecoversFirst(c, states[|steps|], r, c.original.Some?)
  {
    states, steps := FirstRename(c, r);
    assert Recovering(c, states[|steps|], r);
    states, steps := Extend(c, states, steps, CRASH);
    states, steps := RecoveryStarts(c, states, steps, r);
  }

  lemma WindowOpens(c: Config, before: seq<State>, done: seq<Step>, r: RunId) returns (states: seq<State>, steps: seq<Step>)
    requires Path(c, before, done) && Initial(c, before[0]) && RecoversFirst(c, before[|done|], r, c.original.Some?)
    ensures Path(c, states, steps) && before <= states && Restorable(c, states[|steps|], r)
    ensures states[|steps|].runs[r].targetExisted == Some(c.original.Some?)
  {
    RenamedMatches(c, before, done, r);
    states, steps := Extend(c, before, done, STATEMENT(RECORD_RECOVERED));
  }

  // After a crash behind the rename, the next process is about to verify the live table.
  lemma RecoveryStarts(c: Config, before: seq<State>, done: seq<Step>, r: RunId) returns (states: seq<State>, steps: seq<Step>)
    requires Path(c, before, done)
    requires var s := before[|done|];
             && s.pc.Idle? && r in c.manifests && Validated(c.manifests[r]) && r in s.incoming
             && r in s.runs && s.runs[r].status == SWAPPING && After(s, r) && MayPromote(c, s, r)
    ensures Path(c, states, steps) && before <= states
    ensures states[|steps|] == before[|done|].(pc := At(r, RecoverAfter(LatestRun(before[|done|].versions))))
  {
    var s := before[|done|];
    states, steps := Extend(c, before, done, LOCK(r));
    states, steps := Extend(c, states, steps, REGISTER);
    assert states[|steps|] == s.(pc := At(r, Registered(false)));
    states, steps := Extend(c, states, steps, STATEMENT(PROCEED));
  }

  lemma RenamedMatches(c: Config, states: seq<State>, steps: seq<Step>, r: RunId)
    requires Path(c, states, steps) && Initial(c, states[0]) && r in c.manifests
    requires IsTable(states[|steps|], Live) && states[|steps|].catalog[Live].origin == Some(r)
    ensures Matches(c, r, states[|steps|].catalog[Live].rows)
  {
    PathIsBehaviour(c, states, steps);
    Reachable(c, states, steps, |steps|);
  }

  lemma FinalizeSucceeds(c: Config, s: State, r: RunId)
    requires Inv(c, s) && Recovering(c, s, r) && s.pc.At? && s.pc.run == r && s.pc.point.Renamed?
    ensures var next := Apply(c, s, STATEMENT(FINALIZE));
            next.Some? && next.value.pc.At? && next.value.pc.run == r && r in next.value.runs && next.value.runs[r].status == VERIFIED
  {
    SwapEnabled(c, s, r);
  }

  // A VERIFIED run can become FAILED: the next statement of its process has to fail only.
  lemma VerifiedCanFail(c: Config, r: RunId) returns (states: seq<State>, steps: seq<Step>, k: nat)
    requires NewDatabase(c, r)
    ensures Behaviour(c, states, steps) && k < |steps|
    ensures r in states[k].runs && states[k].runs[r].status == VERIFIED
    ensures r in states[|steps|].runs && states[|steps|].runs[r].status == FAILED
  {
    states, steps := FirstRename(c, r);
    FinalizeSucceeds(c, states[|steps|], r);
    states, steps := Extend(c, states, steps, STATEMENT(FINALIZE));
    k := |steps|;
    states, steps := Extend(c, states, steps, FAIL);
    PathIsBehaviour(c, states, steps);
  }
}
