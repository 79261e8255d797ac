/**
  What a process that meets no failure makes of a run: it issues one statement after the other until
  the run is finished or a statement is impossible. The outcome is determined for every state.
 */
module PromotionOutcome {
  import opened Wrappers
  import opened Digest
  import opened Promotion
  import opened PromotionSafety
  import opened PromotionRecovery
  import opened PromotionCompletion

  predicate Importable(c: Config, s: State, r: RunId, i: nat)
    requires r in c.manifests && i < |c.manifests[r].chunks|
  {
    IsTable(s, Staging(r)) && c.manifests[r].chunks[i].wellFormed && |c.manifests[r].chunks[i].rows| == c.manifests[r].chunks[i].declared
  }

  // The statement the process issues next.
  function NextStatement(c: Config, s: State): Step
    requires s.pc.At? && s.pc.run in c.manifests && (s.pc.point.Entered? || s.pc.run in s.runs)
  {
    var r := s.pc.run;
    match s.pc.point
    case Entered => REGISTER
    case Registered(_) =>
      (match s.runs[r].status
       case SWAPPING => STATEMENT(PROCEED)
       case STAGED | VERIFYING => STATEMENT(RESUME)
       case VERIFIED | MISMATCH | SUPERSEDED => RELEASE
       case _ => STATEMENT(OPEN_STAGING))
    case Created => STATEMENT(BEGIN_IMPORT)
    case Loading(i) =>
      STATEMENT(if i >= |s.runs[r].chunks| then COMPLETE_STAGED
                else if s.runs[r].chunks[i].IMPORTED? then SKIP_CHUNK
                else if i < |c.manifests[r].chunks| && Importable(c, s, r, i) then IMPORT_CHUNK else REJECT_CHUNK)
    case ToVerify => STATEMENT(SET_VERIFYING)
    case Checking => STATEMENT(COMPARE_DIGEST)
    case Compared(_) => STATEMENT(RECORD_VERIFICATION)
    case Matched => STATEMENT(PROCEED)
    case Older => STATEMENT(SUPERSEDE)
    case Ordered(_) => STATEMENT(PREPARE_SWAPPING)
    case Prepared(_) => STATEMENT(RENAME)
    case RecoverAfter(_) => STATEMENT(RECORD_RECOVERED)
    case Restored(_) => STATEMENT(RESTORE_INTENT)
    case Renamed(_) => STATEMENT(FINALIZE)
    case Raising => FAIL
    case Returning => RELEASE
  }

  // How many statements it has left at most.
  function Remaining(c: Config, s: State): nat
    requires s.pc.At? && s.pc.run in c.manifests
  {
    var n := |c.manifests[s.pc.run].chunks|;
    match s.pc.point
    case Entered => n + 14
    case Registered(_) => n + 13
    case Created => n + 12
    case Loading(i) => if i <= n then n - i + 11 else 11
    case ToVerify => 9
    case Checking => 8
    case Compared(_) => 7
    case Matched => 6
    case Ordered(_) => 5
    case RecoverAfter(_) => 4
    case Restored(_) | Prepared(_) => 3
    case Renamed(_) | Older => 2
    case Raising | Returning => 1
  }

  predicate IsEarly(point: Point) {
    point.Entered? || point.Registered? || point.Created? || point.Loading? || point.ToVerify? || point.Checking? || point.Compared?
  }

  lemma EarlyProgresses(c: Config, s: State, s': State)
    requires PcOk(c, s) && RunsOk(c, s) && s.pc.At? && Release(s).None? && IsEarly(s.pc.point)
    requires Apply(c, s, NextStatement(c, s)) == Some(s')
    ensures s'.pc.At? && s'.pc.run == s.pc.run && Remaining(c, s') < Remaining(c, s)
  {
    if s.pc.point.Loading? { LoadingProgresses(c, s, s'); }
  }

  lemma LoadingProgresses(c: Config, s: State, s': State)
    requires PcOk(c, s) && RunsOk(c, s) && s.pc.At? && s.pc.point.Loading? && Apply(c, s, NextStatement(c, s)) == Some(s')
    ensures s'.pc.At? && s'.pc.run == s.pc.run && Remaining(c, s') < Remaining(c, s)
  {
    assert RunOk(c, s.pc.run, s.runs[s.pc.run]);
  }

  lemma LateProgresses(c: Config, s: State, s': State)
    requires PcOk(c, s) && s.pc.At? && Release(s).None? && !IsEarly(s.pc.point) && !s.pc.point.Raising?
    requires Apply(c, s, NextStatement(c, s)) == Some(s')
    ensures s'.pc.At? && s'.pc.run == s.pc.run && Remaining(c, s') < Remaining(c, s)
  {
  }

  lemma StatementProgresses(c: Config, s: State, s': State)
    requires PcOk(c, s) && RunsOk(c, s) && s.pc.At? && Release(s).None? && !s.pc.point.Raising?
    requires Apply(c, s, NextStatement(c, s)) == Some(s')
    ensures s'.pc.At? && s'.pc.run == s.pc.run && Remaining(c, s') < Remaining(c, s)
  {
    if IsEarly(s.pc.point) {
      EarlyProgresses(c, s, s');
    } else {
      LateProgresses(c, s, s');
    }
  }

  // The state in which it leaves the database. A statement that is impossible raises.
  ghost function Outcome(c: Config, s: State): State
    requires Inv(c, s) && s.pc.At?
    decreases Remaining(c, s)
  {
    if Release(s).Some? then Release(s).value
    else if s.pc.point.Raising? then Fail(s)
    else
      var next := Apply(c, s, NextStatement(c, s));
      if next.None? then Fail(s)
      else
        StepInv(c, s, NextStatement(c, s), next.value);
        StatementProgresses(c, s, next.value);
        Outcome(c, next.value)
  }

  // --- Nothing stands in the way: the run is VERIFIED ---

  ghost predicate Succeeds(c: Config, s: State)
    requires s.pc.At? && s.pc.run in c.manifests && (s.pc.point.Entered? || s.pc.run in s.runs)
  {
    Release(s).None? && NextStatement(c, s) != STATEMENT(REJECT_CHUNK) && Apply(c, s, NextStatement(c, s)).Some?
  }

  lemma EntryEnabled(c: Config, s: State, r: RunId)
    requires PcOk(c, s) && CatalogOk(c, s) && Working(c, s, r) && s.pc.At? && s.pc.run == r && (s.pc.point.Entered? || s.pc.point.Registered?)
    ensures Succeeds(c, s)
  {
    assert StagingOk(c, s, r);
  }

  lemma ImportEnabled(c: Config, s: State, r: RunId)
    requires PcOk(c, s) && RunsOk(c, s) && CatalogOk(c, s) && Stageable(c, s, r)
    requires s.pc.At? && s.pc.run == r && (s.pc.point.Created? || s.pc.point.Loading?)
    ensures Succeeds(c, s)
  {
    var m, rows := c.manifests[r], s.runs[r].chunks;
    assert RunOk(c, r, s.runs[r]) && StagingOk(c, s, r);
    if s.pc.point.Loading? && s.pc.point.next == |rows| {
      TotalOfImported(m, rows);
      assert m.chunks[..|rows|] == m.chunks;
    }
  }

  lemma VerifyEnabled(c: Config, s: State, r: RunId)
    requires PcOk(c, s) && CatalogOk(c, s) && Stageable(c, s, r)
    requires s.pc.At? && s.pc.run == r && (s.pc.point.ToVerify? || s.pc.point.Checking? || s.pc.point.Compared?)
    ensures Succeeds(c, s)
  {
    assert StagingOk(c, s, r);
  }

  lemma PromoteEnabled(c: Config, s: State, r: RunId)
    requires PcOk(c, s) && Preparing(c, s, r) && s.pc.At? && s.pc.run == r && (s.pc.point.Matched? || s.pc.point.Ordered?)
    ensures Succeeds(c, s)
  {
  }

  lemma SwapEnabled(c: Config, s: State, r: RunId)
    requires PcOk(c, s) && RunsOk(c, s) && OrderOk(c, s) && LiveOk(c, s)
    requires Recovering(c, s, r) || Restorable(c, s, r)
    requires s.pc.At? && s.pc.run == r && !s.pc.point.Entered? && !s.pc.point.Registered?
    ensures Succeeds(c, s)
  {
    assert RunOk(c, r, s.runs[r]);
  }

  lemma NextStatementSucceeds(c: Config, s: State, r: RunId)
    requires Inv(c, s) && Working(c, s, r) && s.pc.At? && s.pc.run == r && !s.pc.point.Raising?
    ensures Succeeds(c, s)
  {
    if s.pc.point.Entered? || s.pc.point.Registered? {
      EntryEnabled(c, s, r);
    } else if !Preparing(c, s, r) {
      SwapEnabled(c, s, r);
    } else if s.pc.point.Created? || s.pc.point.Loading? {
      ImportEnabled(c, s, r);
    } else if s.pc.point.ToVerify? || s.pc.point.Checking? || s.pc.point.Compared? {
      VerifyEnabled(c, s, r);
    } else {
      PromoteEnabled(c, s, r);
    }
  }

  // Such a step never ends in an exception.
  lemma NextIsWorking(c: Config, s: State, r: RunId)
    requires Inv(c, s) && Working(c, s, r) && s.pc.At? && s.pc.run == r && !s.pc.point.Raising?
    ensures Succeeds(c, s)
    ensures var next := Apply(c, s, NextStatement(c, s)).value;
            && Inv(c, next) && next.pc.At? && next.pc.run == r && !next.pc.point.Raising? && Remaining(c, next) < Remaining(c, s)
            && (if next.pc.point.Returning? then Done(next, r) else Working(c, next, r))
  {
    NextStatementSucceeds(c, s, r);
    var next := Apply(c, s, NextStatement(c, s)).value;
    StepInv(c, s, NextStatement(c, s), next);
    StepWorks(c, s, NextStatement(c, s), next, r);
    StatementProgresses(c, s, next);
    if next.pc.point.Raising? { OnlyRejectionRaises(c, s, NextStatement(c, s), next); }
    OnlyFinalizeAdds(c, s, next, r);
  }

  lemma OnlyRejectionRaises(c: Config, s: State, step: Step, next: State)
    requires Apply(c, s, step) == Some(next) && next.pc.At? && next.pc.point.Raising? && s.pc.At? && !s.pc.point.Raising?
    ensures step == STATEMENT(REJECT_CHUNK)
  {
    if step.STATEMENT? && !step.op.REJECT_CHUNK? { OthersDoNotRaise(c, s, step.op, next); }
  }

  lemma OthersDoNotRaise(c: Config, s: State, op: Op, next: State)
    requires Running(c, s) && Execute(c, s, op) == Some(next) && !op.REJECT_CHUNK?
    ensures next.pc.At? && !next.pc.point.Raising?
  {
  }

  // The run becomes the latest version with its last statement.
  lemma OnlyFinalizeAdds(c: Config, s: State, next: State, r: RunId)
    requires PcOk(c, s) && Working(c, s, r) && s.pc.At? && s.pc.run == r && Succeeds(c, s)
    requires next == Apply(c, s, NextStatement(c, s)).value
    ensures next.versions == s.versions || next.pc.point.Returning?
  {
  }

  // The run ends VERIFIED, and the live table has exactly its rows.
  lemma {:induction false} UninterruptedProcessVerifies(c: Config, s: State, r: RunId)
    requires Inv(c, s) && Working(c, s, r) && s.pc.At? && s.pc.run == r && !s.pc.point.Raising?
    ensures var o := Outcome(c, s);
            && o.pc.Idle? && Done(o, r)
            && r in c.manifests && o.catalog[Live] == BaseTable(AllRows(c.manifests[r].chunks), Some(r))
    decreases Remaining(c, s)
  {
    NextIsWorking(c, s, r);
    var next := Apply(c, s, NextStatement(c, s)).value;
    if !next.pc.point.Returning? {
      UninterruptedProcessVerifies(c, next, r);
    }
  }

  // --- The run is not what it claims, or comes too late ---

  // Up to the comparison of the digests.
  predicate BeforeComparison(s: State) {
    s.pc.At? && IsEarly(s.pc.point) && !s.pc.point.Compared?
  }

  // What the live name stands for, and the versions, are as before.
  predicate SameTarget(s: State, o: State) {
    o.versions == s.versions && (Live in o.catalog <==> Live in s.catalog) && (Live in s.catalog ==> o.catalog[Live] == s.catalog[Live])
  }

  lemma StagingSucceeds(c: Config, s: State, r: RunId)
    requires Inv(c, s) && Stageable(c, s, r) && BeforeComparison(s) && s.pc.run == r
    ensures Succeeds(c, s)
  {
    if s.pc.point.Entered? || s.pc.point.Registered? {
      StagingEntry(c, s, r);
    } else if s.pc.point.Created? || s.pc.point.Loading? {
      ImportEnabled(c, s, r);
    } else {
      VerifyEnabled(c, s, r);
    }
  }

  lemma StagingEntry(c: Config, s: State, r: RunId)
    requires PcOk(c, s) && CatalogOk(c, s) && Stageable(c, s, r) && s.pc.At? && s.pc.run == r && (s.pc.point.Entered? || s.pc.point.Registered?)
    ensures Succeeds(c, s)
  {
    assert StagingOk(c, s, r);
  }

  lemma StagingKeepsTarget(c: Config, s: State, next: State)
    requires BeforeComparison(s) && s.pc.run in c.manifests && (s.pc.point.Entered? || s.pc.run in s.runs)
    requires Apply(c, s, NextStatement(c, s)) == Some(next)
    requires s.pc.point.Registered? ==> s.runs[s.pc.run].status != SWAPPING
    ensures SameTarget(s, next)
  {
  }

  lemma StagingAdvances(c: Config, s: State, next: State)
    requires PcOk(c, s) && BeforeComparison(s) && Release(s).None? && Apply(c, s, NextStatement(c, s)) == Some(next)
    requires NextStatement(c, s) != STATEMENT(REJECT_CHUNK)
    requires s.pc.point.Registered? ==> s.runs[s.pc.run].status != SWAPPING
    ensures next.pc.At? && (BeforeComparison(next) || next.pc.point.Compared?)
  {
  }

  lemma StagingNext(c: Config, s: State, r: RunId, next: State)
    requires Inv(c, s) && Stageable(c, s, r) && BeforeComparison(s) && s.pc.run == r && Succeeds(c, s)
    requires next == Apply(c, s, NextStatement(c, s)).value
    ensures SameTarget(s, next) && Stageable(c, next, r) && next.pc.At? && next.pc.run == r && (BeforeComparison(next) || next.pc.point.Compared?)
  {
    var step := NextStatement(c, s);
    StagingKeepsTarget(c, s, next);
    StagingAdvances(c, s, next);
    StatementProgresses(c, s, next);
    if s.pc.point.Entered? { PreparingOther(c, s, step, next, r); }
    else if s.pc.point.Registered? || s.pc.point.Created? { StagingStatement(c, s, step.op, next, r); }
    else if s.pc.point.Loading? { ImportStatement(c, s, step.op, next, r); }
    else { CheckStatement(c, s, step.op, next, r); }
  }

  // What becomes of a run that can be imported: MISMATCH if its rows are not those of its manifest,
  // SUPERSEDED if the latest version is newer, FAILED if it is as old, and VERIFIED otherwise. In
  // all cases but the last the live table and the versions stay as they are.
  ghost predicate Judged(c: Config, s: State, r: RunId, o: State)
    requires r in c.manifests
  {
    && o.pc.Idle? && r in o.runs
    && (!Faithful(c, c.manifests[r]) ==> o.runs[r].status == MISMATCH && SameTarget(s, o))
    && (Faithful(c, c.manifests[r]) && MayPromote(c, s, r) ==> Done(o, r))
    && (Faithful(c, c.manifests[r]) && !MayPromote(c, s, r) ==>
          && SameTarget(s, o)
          && o.runs[r].status == if Compare(r, c.manifests[r].createdAt, Latest(s.versions)) == OLDER then SUPERSEDED else FAILED)
  }

  lemma ComparedOutcome(c: Config, s: State, r: RunId)
    requires Inv(c, s) && Stageable(c, s, r) && s.pc.At? && s.pc.point.Compared? && s.pc.run == r
    requires !(Faithful(c, c.manifests[r]) && MayPromote(c, s, r))
    ensures Judged(c, s, r, Outcome(c, s))
  {
    VerifyEnabled(c, s, r);
    var next := Apply(c, s, NextStatement(c, s)).value;
    StepInv(c, s, NextStatement(c, s), next);
    if next.pc.point.Matched? {
      TooLate(c, next, r);
    }
  }

  lemma SupersededOutcome(c: Config, s: State, r: RunId)
    requires Inv(c, s) && s.pc == At(r, Older)
    ensures var o := Outcome(c, s); o.pc.Idle? && SameTarget(s, o) && r in o.runs && o.runs[r].status == SUPERSEDED
  {
    SupersedeIsNext(c, s, r);
    var next := Supersede(s).value;
    GoesOn(c, s, STATEMENT(SUPERSEDE), next);
  }

  lemma SupersedeIsNext(c: Config, s: State, r: RunId)
    requires PcOk(c, s) && s.pc == At(r, Older)
    ensures r in c.manifests && r in s.runs && Release(s).None? && NextStatement(c, s) == STATEMENT(SUPERSEDE)
    ensures Apply(c, s, STATEMENT(SUPERSEDE)) == Supersede(s)
  {
  }

  // The outcome is that of the state behind the next statement.
  lemma GoesOn(c: Config, s: State, step: Step, next: State)
    requires Inv(c, s) && s.pc.At? && s.pc.run in c.manifests && (s.pc.point.Entered? || s.pc.run in s.runs)
    requires Release(s).None? && !s.pc.point.Raising? && step == NextStatement(c, s) && Apply(c, s, step) == Some(next)
    ensures Inv(c, next) && next.pc.At? && Outcome(c, s) == Outcome(c, next)
  {
    StepInv(c, s, step, next);
    StatementProgresses(c, s, next);
  }

  lemma TooLate(c: Config, s: State, r: RunId)
    requires Inv(c, s) && s.pc == At(r, Matched) && r in c.manifests && Faithful(c, c.manifests[r]) && !MayPromote(c, s, r)
    ensures Judged(c, s, r, Outcome(c, s))
  {
    var older := Compare(r, c.manifests[r].createdAt, Latest(s.versions)) == OLDER;
    if older {
      var next := s.(pc := At(r, Older));
      StepInv(c, s, STATEMENT(PROCEED), next);
      SupersededOutcome(c, next, r);
    }
  }

  lemma {:induction false} OutcomeOfRun(c: Config, s: State, r: RunId)
    requires Inv(c, s) && Stageable(c, s, r) && BeforeComparison(s) && s.pc.run == r && r in s.incoming
    ensures Judged(c, s, r, Outcome(c, s))
    decreases Remaining(c, s)
  {
    if Faithful(c, c.manifests[r]) && MayPromote(c, s, r) {
      UninterruptedProcessVerifies(c, s, r);
    } else {
      StagingSucceeds(c, s, r);
      var next := Apply(c, s, NextStatement(c, s)).value;
      StepInv(c, s, NextStatement(c, s), next);
      StagingNext(c, s, r, next);
      StatementProgresses(c, s, next);
      FilesStay(c, s, NextStatement(c, s), next, r);
      if next.pc.point.Compared? {
        ComparedOutcome(c, next, r);
      } else {
        OutcomeOfRun(c, next, r);
      }
    }
  }
}
