/**
  The destination's statements and the processor that issues them, in the code's own form
  (src/airgap_sync/destination/mysql.py and processor.py). Every run of these methods is a
  behaviour of the promotion protocol, whatever statement fails and wherever the process dies.
 */
module Destination {
  import opened Wrappers
  import opened Digest
  import opened Promotion
  import PromotionSafety
  import PromotionTheorems
  import PromotionOutcome

  // What happens when the process turns to its next statement: other processes may clean up
  // first; then the statement is executed, or raises, or the process dies.
  datatype Fate = WORKS | RAISES | DIES | CLEANS(step: Step)

  datatype Outcome = OK | RAISED | DIED

  predicate IsCleanup(step: Step) {
    step.DROP_BACKUP? || step.DROP_STAGING? || step.UNLINK?
  }

  // Tables that other processes dropped are gone, everything else is as it was.
  ghost predicate Cleaned(before: map<Name, Object>, after: map<Name, Object>) {
    && (forall n :: n in after ==> n in before && after[n] == before[n])
    && (Live in before ==> Live in after)
  }

  class DestinationDb {
    const config: Config
    var catalog: map<Name, Object>
    var runs: map<RunId, RunRow>
    var versions: seq<Version>
    var incoming: set<RunId>
    var superseded: set<RunId>
    var backupsCleaned: set<RunId>
    var incomingCleaned: set<RunId>
    var fates: seq<Fate>

    // The lock holder, the number of renames, and the behaviour so far.
    ghost var pc: Pc
    ghost var swaps: map<RunId, nat>
    ghost var states: seq<State>
    ghost var steps: seq<Step>

    ghost function Now(): State
      reads this
    {
      State(catalog, runs, versions, incoming, pc, superseded, swaps)
    }

    ghost predicate Valid()
      reads this
    {
      && Behaviour(config, states, steps)
      && states[|states| - 1] == Now()
    }

    // The process holds the locks for a registered run and is about to issue a statement.
    ghost predicate Holding(r: RunId, point: Point)
      reads this
    {
      Valid() && pc == At(r, point) && r in config.manifests && r in runs
    }

    twostate predicate Continues()
      reads this
    {
      old(states) <= states && old(steps) <= steps
    }

    constructor (config: Config, fates: seq<Fate>)
      requires config.original.Some? && config.original.value.BaseTable? ==> config.original.value.origin.None?
      ensures Valid() && pc.Idle? && this.config == config && states == [Now()] && this.fates == fates
    {
      this.config := config;
      this.fates := fates;
      catalog := if config.original.Some? then map[Live := config.original.value] else map[];
      runs, versions, incoming, superseded := map[], [], config.manifests.Keys, {};
      backupsCleaned, incomingCleaned := {}, {};
      pc, swaps := Idle, map[];
      steps := [];
      states := [State(if config.original.Some? then map[Live := config.original.value] else map[], map[], [],
                       config.manifests.Keys, Idle, {}, map[])];
    }

    static ghost predicate Takes(c: Config, before: State, step: Step, after: State) {
      forall s :: s == before ==> Apply(c, s, step) == Some(after)
    }

    ghost method Record(step: Step, final: State)
      requires Behaviour(config, states, steps)
      requires Takes(config, states[|states| - 1], step, Now())
      modifies this`states, this`steps
      ensures Valid() && states == old(states) + [Now()] && steps == old(steps) + [step]
      ensures var before := old(states[|states| - 1]);
              fates == [] && Leads(config, before, final) && IsNext(config, before, step) ==> Bound(final)
    {
      var before, issued := states, steps;
      states, steps := states + [Now()], steps + [step];
      forall i | 0 <= i < |steps|
        ensures Link(config, states, steps, i)
      {
        assert i < |issued| ==> Link(config, before, issued, i);
      }
      if Leads(config, before[|issued|], final) && IsNext(config, before[|issued|], step) {
        GoesOn(config, before[|issued|], step, Now(), final);
      }
    }

    // --- Whose turn it is ---

    method Turn() returns (o: Outcome)
      requires Valid()
      modifies this
      ensures Valid() && Continues() && SameRuns() && SameSwaps() && pc == old(pc)
      ensures Cleaned(old(catalog), catalog)
      ensures old(fates) == [] ==> o.OK? && fates == [] && Now() == old(Now())
      ensures backupsCleaned == old(backupsCleaned) && incomingCleaned == old(incomingCleaned)
      ensures incoming <= old(incoming)
    {
      while fates != [] && fates[0].CLEANS?
        invariant Valid() && Continues() && SameRuns() && SameSwaps() && pc == old(pc)
        invariant Cleaned(old(catalog), catalog)
        invariant old(fates) == [] ==> fates == [] && Now() == old(Now())
        invariant backupsCleaned == old(backupsCleaned) && incomingCleaned == old(incomingCleaned)
        invariant incoming <= old(incoming)
        decreases |fates|
      {
        var step := fates[0].step;
        fates := fates[1..];
        Clean(step);
      }
      if fates == [] {
        o := OK;
      } else {
        o := if fates[0].RAISES? then RAISED else if fates[0].DIES? then DIED else OK;
        fates := fates[1..];
      }
    }

    twostate predicate SameRuns()
      reads this
    {
      runs == old(runs) && versions == old(versions) && superseded == old(superseded)
    }

    twostate predicate SameSwaps()
      reads this
    {
      swaps == old(swaps)
    }

    // An uninterrupted process that goes on from this state leaves the database in the final one.
    static ghost predicate Leads(c: Config, now: State, final: State) {
      forall s :: s == now ==> PromotionSafety.Inv(c, s) && s.pc.At? && PromotionOutcome.Outcome(c, s) == final
    }

    static ghost predicate EndsBy(now: State, final: State) {
      forall s :: s == now ==> s.pc.At? && Fail(s) == final
    }

    // Nothing will fail, and the process goes on to the final state.
    ghost predicate Bound(final: State)
      reads this
    {
      Valid() && fates == [] && Leads(config, Now(), final)
    }

    // Nothing will fail, and the exception that was raised leads to the final state.
    ghost predicate Failing(final: State)
      reads this
    {
      Valid() && fates == [] && EndsBy(Now(), final)
    }

    // A statement goes on to the final state, or raises where that leads to it.
    ghost predicate Keeps(o: Outcome, final: State)
      reads this
    {
      (o.OK? && Bound(final)) || (o.RAISED? && Failing(final))
    }

    // The final state is reached, but for what was cleaned up.
    ghost predicate Settled(final: State)
      reads this
    {
      && fates == [] && runs == final.runs && versions == final.versions
      && superseded == final.superseded && swaps == final.swaps && Cleaned(final.catalog, catalog)
    }

    lemma Destiny() returns (final: State)
      requires Valid() && pc.At?
      ensures Leads(config, Now(), final)
    {
      PromotionTheorems.Reachable(config, states, steps, |states| - 1);
      final := PromotionOutcome.Outcome(config, Now());
    }

    // The statement is the one the process issues next.
    static ghost predicate IsNext(c: Config, now: State, step: Step) {
      forall s :: s == now ==>
        && s.pc.At? && s.pc.run in c.manifests && (s.pc.point.Entered? || s.pc.run in s.runs)
        && Release(s).None? && !s.pc.point.Raising? && step == PromotionOutcome.NextStatement(c, s)
    }

    static lemma GoesOn(c: Config, s: State, step: Step, after: State, final: State)
      requires Leads(c, s, final) && IsNext(c, s, step) && Takes(c, s, step, after)
      ensures Leads(c, after, final)
    {
      assert PromotionSafety.Inv(c, s) && PromotionOutcome.Outcome(c, s) == final;
      assert Release(s).None? && step == PromotionOutcome.NextStatement(c, s);
      assert Apply(c, s, step) == Some(after);
      PromotionSafety.StepInv(c, s, step, after);
      PromotionOutcome.StatementProgresses(c, s, after);
    }

    static ghost predicate Impossible(c: Config, now: State, step: Step) {
      forall s :: s == now ==> Apply(c, s, step).None?
    }

    // A statement that is impossible raises.
    lemma Stuck(step: Step, final: State)
      requires IsNext(config, Now(), step) && Impossible(config, Now(), step)
      ensures Bound(final) ==> Failing(final)
    {
      if Bound(final) {
        assert Release(Now()).None? && step == PromotionOutcome.NextStatement(config, Now());
        assert Apply(config, Now(), step).None?;
        assert PromotionSafety.Inv(config, Now()) && PromotionOutcome.Outcome(config, Now()) == final;
      }
    }

    lemma Raised(final: State)
      requires Bound(final) ==> pc.At? && pc.point.Raising?
      ensures Bound(final) ==> Failing(final)
    {
      if Bound(final) {
        assert PromotionSafety.Inv(config, Now()) && PromotionOutcome.Outcome(config, Now()) == final;
      }
    }

    // A process that releases its locks has reached the final state.
    lemma Released(final: State)
      requires Bound(final) ==> pc.At? && Release(Now()).Some?
      ensures Bound(final) ==> Settled(final)
    {
      if Bound(final) {
        assert PromotionSafety.Inv(config, Now()) && PromotionOutcome.Outcome(config, Now()) == final;
      }
    }

    predicate TableExists(n: Name)
      reads this
      ensures TableExists(n) == IsTable(Now(), n)
    {
      n in catalog && catalog[n].BaseTable?
    }

    predicate HasVersion(r: RunId)
      reads this
    {
      exists i :: 0 <= i < |versions| && versions[i].run == r
    }

    lemma HasVersionMeans(r: RunId)
      ensures HasVersion(r) <==> r in VersionRuns(Now())
    {
    }

    // What may be removed: what a finished run left behind.
    predicate Removable(step: Step)
      reads this
    {
      match step
      case DROP_BACKUP(r) => HasVersion(r)
      case DROP_STAGING(r) => r in superseded
      case UNLINK(r) => HasVersion(r) || r in superseded
      case _ => false
    }

    predicate Gone(step: Step)
      reads this
    {
      match step
      case DROP_BACKUP(r) => Backup(r) !in catalog
      case DROP_STAGING(r) => Staging(r) !in catalog
      case UNLINK(r) => r !in incoming
      case _ => false
    }

    // A statement of a process that cleans up, if its guard holds.
    method Clean(step: Step)
      requires Valid()
      modifies this`catalog, this`incoming, this`states, this`steps
      ensures Valid() && Continues() && Cleaned(old(catalog), catalog) && incoming <= old(incoming)
      ensures Removable(step) ==> Gone(step)
    {
      match step {
        case DROP_BACKUP(r) =>
          HasVersionMeans(r);
          if HasVersion(r) && Backup(r) in catalog {
            catalog := catalog - {Backup(r)};
            Record(step, Now());
          }
        case DROP_STAGING(r) =>
          if r in superseded && Staging(r) in catalog {
            catalog := catalog - {Staging(r)};
            Record(step, Now());
          }
        case UNLINK(r) =>
          HasVersionMeans(r);
          if HasVersion(r) || r in superseded {
            incoming := incoming - {r};
            Record(step, Now());
          }
        case _ =>
      }
    }

    // --- Locks and the end of a process ---

    ghost method TakeLocks(r: RunId)
      requires Valid() && pc.Idle? && r in config.manifests && Validated(config.manifests[r]) && r in incoming
      modifies this`pc, this`states, this`steps
      ensures Valid() && Continues() && pc == At(r, Entered)
    {
      pc := At(r, Entered);
      Record(LOCK(r), Now());
    }

    ghost method ReleaseLocks()
      requires Valid() && pc.At? && Release(Now()).Some?
      modifies this`pc, this`states, this`steps
      ensures Valid() && Continues() && pc.Idle?
      ensures forall final :: old(Settled(final)) ==> Settled(final)
    {
      pc := Idle;
      Record(RELEASE, Now());
    }

    // The connection is lost, and with it the locks.
    ghost method LoseLocks()
      requires Valid()
      modifies this`pc, this`states, this`steps
      ensures Valid() && Continues() && pc.Idle?
    {
      pc := Idle;
      Record(CRASH, Now());
    }

    // A step of the process that changes nothing in the database.
    ghost method Note(op: Op, point: Point, final: State)
      requires Valid() && pc.At? && pc.run in config.manifests && pc.run in runs
      requires Takes(config, Now(), STATEMENT(op), Now().(pc := At(pc.run, point)))
      requires IsNext(config, Now(), STATEMENT(op))
      modifies this`pc, this`states, this`steps
      ensures Valid() && Continues() && pc == At(old(pc).run, point)
      ensures old(Bound(final)) ==> Bound(final)
    {
      pc := At(pc.run, point);
      Record(STATEMENT(op), final);
    }

    // --- Statements on run and chunk rows ---

    method RegisterValidatedRun(r: RunId, ghost final: State) returns (o: Outcome)
      requires Valid() && pc == At(r, Entered) && r in config.manifests
      modifies this
      ensures Valid() && Continues() && SameSwaps()
      ensures o.OK? ==> Holding(r, Registered(r !in old(runs)))
      ensures o.OK? && r in old(runs) ==> runs == old(runs)
      ensures o.OK? && r !in old(runs) ==>
        runs == old(runs)[r := NewRun(config, r)]
      ensures !o.OK? ==> runs == old(runs) && pc == old(pc)
      ensures old(Bound(final)) ==> Keeps(o, final)
    {
      o := Turn();
      if o.OK? {
        AddRun(r, final);
      }
    }

    method AddRun(r: RunId, ghost final: State)
      requires Valid() && pc == At(r, Entered) && r in config.manifests
      modifies this`runs, this`pc, this`states, this`steps
      ensures Continues() && Holding(r, Registered(r !in old(runs)))
      ensures runs == if r in old(runs) then old(runs) else old(runs)[r := NewRun(config, r)]
      ensures old(Bound(final)) ==> Bound(final)
    {
      RegisterStep(config, Now(), r);
      ghost var firstTime := r !in runs;
      if r !in runs {
        runs := runs[r := NewRun(config, r)];
      }
      pc := At(r, Registered(firstTime));
      Record(REGISTER, final);
    }

    static function NewRun(c: Config, r: RunId): RunRow
      requires r in c.manifests
    {
      RunRow(VALIDATED, seq(|c.manifests[r].chunks|, _ => PENDING), None, false)
    }

    static lemma RegisterStep(c: Config, s: State, r: RunId)
      requires r in c.manifests && s.pc == At(r, Entered)
      ensures IsNext(c, s, REGISTER)
      ensures Takes(c, s, REGISTER,
                    s.(runs := if r in s.runs then s.runs else s.runs[r := NewRun(c, r)], pc := At(r, Registered(r !in s.runs))))
    {
    }

    // UPDATE of the run's row by the process that holds its lock.
    method UpdateRun(r: RunId, row: RunRow, ghost point: Point, ghost op: Op, ghost final: State)
      requires Valid() && r in runs && IsNext(config, Now(), STATEMENT(op))
      requires Takes(config, Now(), STATEMENT(op), Now().(runs := runs[r := row], pc := At(r, point)))
      modifies this`runs, this`pc, this`states, this`steps
      ensures Valid() && Continues() && runs == old(runs)[r := row] && pc == At(r, point)
      ensures old(Bound(final)) ==> Bound(final)
    {
      runs, pc := runs[r := row], At(r, point);
      Record(STATEMENT(op), final);
    }

    static lemma StatusStep(c: Config, s: State, r: RunId, op: Op)
      requires r in s.runs && r in c.manifests
      requires (op.BEGIN_IMPORT? && s.pc == At(r, Created)) || (op.SET_VERIFYING? && s.pc == At(r, ToVerify))
      ensures IsNext(c, s, STATEMENT(op))
      ensures Takes(c, s, STATEMENT(op),
                    if op.BEGIN_IMPORT? then SetStatus(s, r, IMPORTING, Loading(0)) else SetStatus(s, r, VERIFYING, Checking))
    {
    }

    method BeginImport(r: RunId, ghost final: State) returns (o: Outcome)
      requires Holding(r, Created)
      modifies this
      ensures Continues() && SameSwaps() && versions == old(versions)
      ensures o.OK? ==> Holding(r, Loading(0)) && runs == old(runs)[r := old(runs)[r].(status := IMPORTING)]
      ensures !o.OK? ==> Holding(r, old(pc).point) && runs == old(runs)
      ensures old(Bound(final)) ==> Keeps(o, final)
    {
      o := Turn();
      if o.OK? {
        StatusStep(config, Now(), r, BEGIN_IMPORT);
        UpdateRun(r, runs[r].(status := IMPORTING), Loading(0), BEGIN_IMPORT, final);
      }
    }

    // The totals of the imported chunks must be those of the run.
    method CompleteStaged(r: RunId, ghost final: State) returns (o: Outcome)
      requires r in runs && Holding(r, Loading(|runs[r].chunks|))
      modifies this
      ensures Continues() && SameSwaps() && versions == old(versions)
      ensures o.OK? ==> Holding(r, ToVerify) && runs == old(runs)[r := old(runs)[r].(status := STAGED)]
      ensures o.OK? ==> AllImported(old(runs)[r].chunks) && ImportedTotal(old(runs)[r].chunks) == config.manifests[r].rowCount
      ensures !o.OK? ==> Holding(r, old(pc).point) && runs == old(runs)
      ensures old(Bound(final)) ==> Keeps(o, final)
    {
      o := Turn();
      if o.OK? {
        CompleteStep(config, Now(), r);
        if !AllImported(runs[r].chunks) || ImportedTotal(runs[r].chunks) != config.manifests[r].rowCount {
          Stuck(STATEMENT(COMPLETE_STAGED), final);
          return RAISED;
        }
        UpdateRun(r, runs[r].(status := STAGED), ToVerify, COMPLETE_STAGED, final);
      }
    }

    static lemma CompleteStep(c: Config, s: State, r: RunId)
      requires r in s.runs && r in c.manifests && s.pc == At(r, Loading(|s.runs[r].chunks|))
      ensures IsNext(c, s, STATEMENT(COMPLETE_STAGED))
      ensures if AllImported(s.runs[r].chunks) && ImportedTotal(s.runs[r].chunks) == c.manifests[r].rowCount
              then Takes(c, s, STATEMENT(COMPLETE_STAGED), SetStatus(s, r, STAGED, ToVerify))
              else Impossible(c, s, STATEMENT(COMPLETE_STAGED))
    {
    }

    method SetVerifying(r: RunId, ghost final: State) returns (o: Outcome)
      requires Holding(r, ToVerify)
      modifies this
      ensures Continues() && SameSwaps() && versions == old(versions)
      ensures o.OK? ==> Holding(r, Checking) && runs == old(runs)[r := old(runs)[r].(status := VERIFYING)]
      ensures !o.OK? ==> Holding(r, old(pc).point) && runs == old(runs)
      ensures old(Bound(final)) ==> Keeps(o, final)
    {
      o := Turn();
      if o.OK? {
        StatusStep(config, Now(), r, SET_VERIFYING);
        UpdateRun(r, runs[r].(status := VERIFYING), Checking, SET_VERIFYING, final);
      }
    }

    // STAGED again when the digest matched, MISMATCH otherwise.
    method RecordVerification(r: RunId, matched: bool, ghost final: State) returns (o: Outcome)
      requires Holding(r, Compared(matched))
      modifies this
      ensures Continues() && SameSwaps() && versions == old(versions)
      ensures o.OK? ==> Holding(r, if matched then Matched else Returning)
      ensures o.OK? ==> runs == old(runs)[r := old(runs)[r].(status := if matched then STAGED else MISMATCH)]
      ensures !o.OK? ==> Holding(r, old(pc).point) && runs == old(runs)
      ensures old(Bound(final)) ==> Keeps(o, final)
    {
      o := Turn();
      if o.OK? {
        VerificationStep(config, Now(), r, matched);
        UpdateRun(r, runs[r].(status := if matched then STAGED else MISMATCH), if matched then Matched else Returning,
                  RECORD_VERIFICATION, final);
      }
    }

    static lemma VerificationStep(c: Config, s: State, r: RunId, matched: bool)
      requires r in s.runs && r in c.manifests && s.pc == At(r, Compared(matched))
      ensures IsNext(c, s, STATEMENT(RECORD_VERIFICATION))
      ensures Takes(c, s, STATEMENT(RECORD_VERIFICATION),
                    if matched then SetStatus(s, r, STAGED, Matched) else SetStatus(s, r, MISMATCH, Returning))
    {
    }

    // The same statement after the live table was verified during recovery.
    method RecordRecovered(r: RunId, ghost latest: Option<RunId>, ghost final: State) returns (o: Outcome)
      requires Holding(r, RecoverAfter(latest))
      requires IsTable(Now(), Live) && Matches(config, r, catalog[Live].rows)
      modifies this
      ensures Continues() && SameSwaps() && versions == old(versions)
      ensures o.OK? ==> Holding(r, Restored(latest)) && runs == old(runs)[r := old(runs)[r].(status := STAGED)]
      ensures !o.OK? ==> Holding(r, old(pc).point) && runs == old(runs)
      ensures old(Bound(final)) ==> Keeps(o, final)
    {
      o := Turn();
      if o.OK? {
        RecoveredStep(config, Now(), r, latest);
        UpdateRun(r, runs[r].(status := STAGED), Restored(latest), RECORD_RECOVERED, final);
      }
    }

    static lemma RecoveredStep(c: Config, s: State, r: RunId, latest: Option<RunId>)
      requires r in s.runs && r in c.manifests && s.pc == At(r, RecoverAfter(latest))
      requires IsTable(s, Live) && Matches(c, r, s.catalog[Live].rows)
      ensures IsNext(c, s, STATEMENT(RECORD_RECOVERED))
      ensures Takes(c, s, STATEMENT(RECORD_RECOVERED), SetStatus(s, r, STAGED, Restored(latest)))
    {
    }

    method SetSuperseded(r: RunId, ghost final: State) returns (o: Outcome)
      requires Holding(r, Older)
      modifies this
      ensures Continues() && SameSwaps() && versions == old(versions)
      ensures o.OK? ==>
        Holding(r, Returning) && runs == old(runs)[r := old(runs)[r].(status := SUPERSEDED)] && superseded == old(superseded) + {r}
      ensures !o.OK? ==> Holding(r, old(pc).point) && runs == old(runs)
      ensures old(Bound(final)) ==> Keeps(o, final)
    {
      o := Turn();
      if o.OK? {
        MarkSuperseded(r, final);
      }
    }

    method MarkSuperseded(r: RunId, ghost final: State)
      requires Holding(r, Older)
      modifies this`runs, this`superseded, this`pc, this`states, this`steps
      ensures Continues() && Holding(r, Returning)
      ensures runs == old(runs)[r := old(runs)[r].(status := SUPERSEDED)] && superseded == old(superseded) + {r}
      ensures old(Bound(final)) ==> Bound(final)
    {
      SupersedeStep(config, Now(), r);
      runs, superseded, pc := runs[r := runs[r].(status := SUPERSEDED)], superseded + {r}, At(r, Returning);
      Record(STATEMENT(SUPERSEDE), final);
    }

    static lemma SupersedeStep(c: Config, s: State, r: RunId)
      requires r in c.manifests && r in s.runs && s.pc == At(r, Older)
      ensures IsNext(c, s, STATEMENT(SUPERSEDE))
      ensures Takes(c, s, STATEMENT(SUPERSEDE), SetStatus(s, r, SUPERSEDED, Returning).(superseded := s.superseded + {r}))
    {
    }

    // Persists the swap intent: first before the rename, again when recovery took it back.
    method PrepareSwapping(r: RunId, targetExisted: bool, backup: bool, ghost latest: Option<RunId>, ghost final: State) returns (o: Outcome)
      requires backup == targetExisted
      requires || (&& Holding(r, Ordered(latest)) && targetExisted == (Live in catalog)
                   && (targetExisted ==> IsTable(Now(), Live) && Backup(r) !in catalog))
               || (Holding(r, Restored(latest)) && runs[r].targetExisted == Some(targetExisted) && runs[r].backup == backup)
      modifies this
      ensures Continues() && SameSwaps() && versions == old(versions)
      ensures o.OK? ==> Holding(r, if old(pc).point.Ordered? then Prepared(latest) else Renamed(latest))
      ensures o.OK? ==> runs == old(runs)[r := old(runs)[r].(status := SWAPPING, targetExisted := Some(targetExisted), backup := backup)]
      ensures !o.OK? ==> Holding(r, old(pc).point) && runs == old(runs)
      ensures old(Bound(final)) ==> Keeps(o, final)
    {
      o := Turn();
      if o.OK? {
        ghost var restoring := pc.point.Restored?;
        if restoring {
          RestoreStep(config, Now(), r, targetExisted, latest);
        } else {
          IntentStep(config, Now(), r, targetExisted, latest);
        }
        UpdateRun(r, runs[r].(status := SWAPPING, targetExisted := Some(targetExisted), backup := backup),
                  if restoring then Renamed(latest) else Prepared(latest),
                  if restoring then RESTORE_INTENT else PREPARE_SWAPPING, final);
      }
    }

    static function WithIntent(s: State, r: RunId, existed: bool, point: Point): State
      requires r in s.runs
    {
      s.(runs := s.runs[r := s.runs[r].(status := SWAPPING, targetExisted := Some(existed), backup := existed)], pc := At(r, point))
    }

    static lemma IntentStep(c: Config, s: State, r: RunId, existed: bool, latest: Option<RunId>)
      requires r in s.runs && r in c.manifests && s.pc == At(r, Ordered(latest)) && existed == (Live in s.catalog)
      requires existed ==> IsTable(s, Live) && Backup(r) !in s.catalog
      ensures IsNext(c, s, STATEMENT(PREPARE_SWAPPING))
      ensures Takes(c, s, STATEMENT(PREPARE_SWAPPING), WithIntent(s, r, existed, Prepared(latest)))
    {
    }

    static lemma RestoreStep(c: Config, s: State, r: RunId, existed: bool, latest: Option<RunId>)
      requires r in s.runs && r in c.manifests && s.pc == At(r, Restored(latest))
      requires s.runs[r].targetExisted == Some(existed) && s.runs[r].backup == existed
      ensures IsNext(c, s, STATEMENT(RESTORE_INTENT))
      ensures Takes(c, s, STATEMENT(RESTORE_INTENT), WithIntent(s, r, existed, Renamed(latest)))
    {
      assert s.runs[r].(status := SWAPPING) == s.runs[r].(status := SWAPPING, targetExisted := Some(existed), backup := existed);
    }

    // --- Statements on tables ---

    method CreateStagingTable(r: RunId, ghost firstTime: bool, ghost final: State) returns (o: Outcome)
      requires Holding(r, Registered(firstTime)) && runs[r].status in {VALIDATED, IMPORTING, FAILED}
      requires Staging(r) !in catalog && (firstTime || !AnyImported(runs[r].chunks))
      modifies this
      ensures Continues() && SameSwaps() && versions == old(versions) && runs == old(runs)
      ensures o.OK? ==> Holding(r, Created) && Staging(r) in catalog && catalog[Staging(r)] == BaseTable(multiset{}, Some(r))
      ensures !o.OK? ==> Holding(r, old(pc).point)
      ensures old(Bound(final)) ==> Keeps(o, final)
    {
      o := Turn();
      if o.OK? {
        CreateStep(config, Now(), r, firstTime);
        catalog, pc := catalog[Staging(r) := BaseTable(multiset{}, Some(r))], At(r, Created);
        Record(STATEMENT(OPEN_STAGING), final);
      }
    }

    static lemma CreateStep(c: Config, s: State, r: RunId, firstTime: bool)
      requires r in s.runs && r in c.manifests && s.pc == At(r, Registered(firstTime)) && s.runs[r].status in {VALIDATED, IMPORTING, FAILED}
      requires Staging(r) !in s.catalog && (firstTime || !AnyImported(s.runs[r].chunks))
      ensures IsNext(c, s, STATEMENT(OPEN_STAGING))
      ensures Takes(c, s, STATEMENT(OPEN_STAGING),
                    s.(catalog := s.catalog[Staging(r) := BaseTable(multiset{}, Some(r))], pc := At(r, Created)))
    {
    }

    // One RENAME TABLE. The database refuses it when a source name is missing or a target exists.
    method RenameForPromotion(r: RunId, backup: bool, ghost latest: Option<RunId>, ghost final: State) returns (o: Outcome)
      requires Holding(r, Prepared(latest)) && runs[r].backup == backup
      modifies this
      ensures Continues() && versions == old(versions) && runs == old(runs)
      ensures o.OK? ==>
        && Holding(r, Renamed(latest)) && swaps == old(swaps)[r := Swaps(old(Now()), r) + 1]
        && Staging(r) in old(catalog) && Staging(r) !in catalog
        && Live in catalog && catalog[Live] == old(catalog)[Staging(r)]
        && (backup ==> Live in old(catalog) && Backup(r) in catalog && catalog[Backup(r)] == old(catalog)[Live])
      ensures !o.OK? ==> Holding(r, old(pc).point) && SameSwaps()
      ensures old(Bound(final)) ==> Keeps(o, final)
    {
      o := Turn();
      if o.OK? {
        RenameStep(config, Now(), r, latest);
        if Staging(r) !in catalog || (backup && (Live !in catalog || Backup(r) in catalog)) || (!backup && Live in catalog) {
          Stuck(STATEMENT(RENAME), final);
          return RAISED;
        }
        Rename(r, backup, latest, final);
      }
    }

    method Rename(r: RunId, backup: bool, ghost latest: Option<RunId>, ghost final: State)
      requires Holding(r, Prepared(latest)) && runs[r].backup == backup && Staging(r) in catalog
      requires if backup then Live in catalog && Backup(r) !in catalog else Live !in catalog
      modifies this`catalog, this`swaps, this`pc, this`states, this`steps
      ensures Valid() && Continues() && pc == At(r, Renamed(latest)) && swaps == old(swaps)[r := Swaps(old(Now()), r) + 1]
      ensures catalog == Swapped(old(catalog), r, backup)
      ensures old(Bound(final)) ==> Bound(final)
    {
      RenameStep(config, Now(), r, latest);
      catalog := Swapped(catalog, r, backup);
      swaps, pc := swaps[r := Swaps(Now(), r) + 1], At(r, Renamed(latest));
      Record(STATEMENT(RENAME), final);
    }

    // The names of the tables after the rename.
    static function Swapped(catalog: map<Name, Object>, r: RunId, backup: bool): (renamed: map<Name, Object>)
      requires Staging(r) in catalog && (backup ==> Live in catalog)
      ensures Staging(r) !in renamed && Live in renamed && renamed[Live] == catalog[Staging(r)]
      ensures backup ==> Backup(r) in renamed && renamed[Backup(r)] == catalog[Live]
    {
      if backup then catalog[Backup(r) := catalog[Live]][Live := catalog[Staging(r)]] - {Staging(r)}
      else catalog[Live := catalog[Staging(r)]] - {Staging(r)}
    }

    static predicate CanRename(s: State, r: RunId)
      requires r in s.runs
    {
      Staging(r) in s.catalog && if s.runs[r].backup then Live in s.catalog && Backup(r) !in s.catalog else Live !in s.catalog
    }

    static lemma RenameStep(c: Config, s: State, r: RunId, latest: Option<RunId>)
      requires s.pc == At(r, Prepared(latest)) && r in c.manifests && r in s.runs
      ensures IsNext(c, s, STATEMENT(RENAME))
      ensures !CanRename(s, r) ==> Impossible(c, s, STATEMENT(RENAME))
      ensures CanRename(s, r) ==>
        Takes(c, s, STATEMENT(RENAME),
              s.(catalog := Swapped(s.catalog, r, s.runs[r].backup),
                 swaps := s.swaps[r := Swaps(s, r) + 1], pc := At(r, Renamed(latest))))
    {
    }

    // --- Versions ---

    method FinalizeVerified(r: RunId, expected: Option<RunId>, ghost final: State) returns (o: Outcome)
      requires Holding(r, Renamed(expected))
      modifies this
      ensures Continues() && SameSwaps()
      ensures o.OK? ==> Holding(r, Returning) && runs == old(runs)[r := old(runs)[r].(status := VERIFIED)]
      ensures o.OK? ==> LatestRun(versions) == Some(r) && old(versions) <= versions <= old(versions) + [NewVersion(config, old(Now()), r)]
      ensures !o.OK? ==> Holding(r, old(pc).point) && runs == old(runs) && versions == old(versions)
      ensures old(Bound(final)) ==> Keeps(o, final)
    {
      o := Turn();
      if o.OK? {
        var recorded := RecordVersion(r, expected, final);
        o := if recorded then OK else RAISED;
      }
    }

    // One transaction: VERIFIED and the version row, against the version the run was ordered by.
    method RecordVersion(r: RunId, expected: Option<RunId>, ghost final: State) returns (recorded: bool)
      requires Holding(r, Renamed(expected))
      modifies this`runs, this`versions, this`pc, this`states, this`steps
      ensures Continues()
      ensures recorded ==> Holding(r, Returning)
      ensures recorded ==> runs == old(runs)[r := old(runs)[r].(status := VERIFIED)]
      ensures recorded ==> LatestRun(versions) == Some(r) && old(versions) <= versions <= old(versions) + [NewVersion(config, old(Now()), r)]
      ensures !recorded ==> Holding(r, old(pc).point) && Now() == old(Now())
      ensures old(Bound(final)) ==> Keeps(if recorded then OK else RAISED, final)
    {
      FinalizeStep(config, Now(), r, expected);
      var previous := Latest(versions);
      recorded := true;
      if previous.Some? && previous.value.run == r {
        MarkVerified(r, expected, final);
      } else {
        var m := config.manifests[r];
        if LatestRun(versions) != expected || (previous.Some? && m.createdAt <= previous.value.createdAt) {
          Stuck(STATEMENT(FINALIZE), final);
          return false;
        }
        var version :=
          if previous.None? then Version(r, m.createdAt, m.rowCount, None, None, None)
          else Version(r, m.createdAt, m.rowCount, Some(previous.value.run), Some(previous.value.rowCount),
                       Some(m.rowCount - previous.value.rowCount));
        LatestAfter(versions, version);
        AddVersion(r, expected, version, final);
      }
    }

    method MarkVerified(r: RunId, ghost expected: Option<RunId>, ghost final: State)
      requires Holding(r, Renamed(expected)) && LatestRun(versions) == Some(r)
      modifies this`runs, this`pc, this`states, this`steps
      ensures Valid() && Continues()
      ensures pc == At(r, Returning) && runs == old(runs)[r := old(runs)[r].(status := VERIFIED)]
      ensures old(Bound(final)) ==> Bound(final)
    {
      FinalizeStep(config, Now(), r, expected);
      UpdateRun(r, runs[r].(status := VERIFIED), Returning, FINALIZE, final);
    }

    method AddVersion(r: RunId, ghost expected: Option<RunId>, version: Version, ghost final: State)
      requires Holding(r, Renamed(expected)) && LatestRun(versions) == expected != Some(r)
      requires version == NewVersion(config, Now(), r)
      requires expected.Some? ==> Latest(versions).value.createdAt < version.createdAt
      modifies this`runs, this`versions, this`pc, this`states, this`steps
      ensures Valid() && Continues()
      ensures pc == At(r, Returning) && versions == old(versions) + [version]
      ensures runs == old(runs)[r := old(runs)[r].(status := VERIFIED)]
      ensures old(Bound(final)) ==> Bound(final)
    {
      FinalizeStep(config, Now(), r, expected);
      runs, versions, pc := runs[r := runs[r].(status := VERIFIED)], versions + [version], At(r, Returning);
      Record(STATEMENT(FINALIZE), final);
    }

    static predicate OutOfOrder(c: Config, s: State, r: RunId, expected: Option<RunId>)
      requires r in c.manifests
    {
      LatestRun(s.versions) != expected || (Latest(s.versions).Some? && c.manifests[r].createdAt <= Latest(s.versions).value.createdAt)
    }

    static lemma FinalizeStep(c: Config, s: State, r: RunId, expected: Option<RunId>)
      requires s.pc == At(r, Renamed(expected)) && r in c.manifests && r in s.runs
      ensures IsNext(c, s, STATEMENT(FINALIZE))
      ensures LatestRun(s.versions) == Some(r) ==> Takes(c, s, STATEMENT(FINALIZE), SetStatus(s, r, VERIFIED, Returning))
      ensures LatestRun(s.versions) != Some(r) && OutOfOrder(c, s, r, expected) ==> Impossible(c, s, STATEMENT(FINALIZE))
      ensures LatestRun(s.versions) != Some(r) && !OutOfOrder(c, s, r, expected) ==>
        Takes(c, s, STATEMENT(FINALIZE),
              s.(runs := s.runs[r := s.runs[r].(status := VERIFIED)], versions := s.versions + [NewVersion(c, s, r)],
                 pc := At(r, Returning)))
    {
    }

    static lemma LatestAfter(versions: seq<Version>, v: Version)
      requires Latest(versions).Some? ==> v.createdAt >= Latest(versions).value.createdAt
      ensures Latest(versions + [v]) == Some(v)
    {
      assert (versions + [v])[..|versions|] == versions;
    }

    // An exception reached process(): FAILED, unless the swap intent is persisted.
    method FailRun(r: RunId) returns (o: Outcome)
      requires Valid() && pc.At? && pc.run == r
      modifies this
      ensures Valid() && Continues() && SameSwaps() && versions == old(versions) && pc.Idle?
      ensures o.OK? && r in old(runs) && old(runs)[r].status != SWAPPING ==> runs == old(runs)[r := old(runs)[r].(status := FAILED)]
      ensures !o.OK? || r !in old(runs) || old(runs)[r].status == SWAPPING ==> runs == old(runs)
      ensures forall final :: old(Failing(final)) ==> o.OK? && Settled(final)
    {
      o := Turn();
      if o.OK? {
        if r in runs && runs[r].status != SWAPPING {
          runs := runs[r := runs[r].(status := FAILED)];
        }
        pc := Idle;
        Record(FAIL, Now());
      } else {
        LoseLocks();
      }
    }

    // --- Cleanup of a finished run ---

    twostate predicate OnlyCleaned()
      reads this
    {
      Valid() && Continues() && SameRuns() && SameSwaps() && pc == old(pc) && Cleaned(old(catalog), catalog)
    }

    // DROP TABLE of a backup or staging table, or removal of a run's files.
    method RemoveLeftover(step: Step) returns (o: Outcome)
      requires Valid() && IsCleanup(step)
      modifies this
      ensures OnlyCleaned() && incoming <= old(incoming)
      ensures o.OK? && Removable(step) ==> Gone(step)
      ensures old(fates) == [] ==> backupsCleaned == old(backupsCleaned) && incomingCleaned == old(incomingCleaned)
      ensures old(fates) == [] && (step.UNLINK? || !old(Gone(step))) ==> o.OK?
      ensures old(fates) == [] ==> !o.DIED? && fates == []
    {
      o := Turn();
      if o.OK? {
        if (step.DROP_BACKUP? && Backup(step.run) !in catalog) || (step.DROP_STAGING? && Staging(step.run) !in catalog) {
          return RAISED;
        }
        Clean(step);
      }
    }

    method RecordBackupCleanup(r: RunId, done: bool) returns (o: Outcome)
      requires Valid()
      modifies this
      ensures OnlyCleaned()
      ensures old(fates) == [] ==> o.OK? && fates == []
      ensures old(fates) == [] ==> Now() == old(Now()) && incomingCleaned == old(incomingCleaned)
      ensures o.OK? ==> backupsCleaned == if done then old(backupsCleaned) + {r} else old(backupsCleaned) - {r}
    {
      o := Turn();
      if o.OK? {
        backupsCleaned := if done then backupsCleaned + {r} else backupsCleaned - {r};
      }
    }

    method RecordIncomingCleanup(r: RunId, done: bool) returns (o: Outcome)
      requires Valid()
      modifies this
      ensures OnlyCleaned()
      ensures old(fates) == [] ==> o.OK? && fates == []
      ensures old(fates) == [] ==> Now() == old(Now()) && backupsCleaned == old(backupsCleaned)
      ensures o.OK? ==> incomingCleaned == if done then old(incomingCleaned) + {r} else old(incomingCleaned) - {r}
    {
      o := Turn();
      if o.OK? {
        incomingCleaned := if done then incomingCleaned + {r} else incomingCleaned - {r};
      }
    }

    // --- Import of a chunk ---

    // The rows of a chunk are decoded one after the other and inserted in batches, inside a
    // transaction: inserted is what the transaction has inserted so far.
    method InsertBatches(r: RunId, point: Point, rows: seq<Row>, batchRows: nat) returns (o: Outcome, inserted: multiset<Row>)
      requires Holding(r, point) && 0 < batchRows
      modifies this
      ensures Holding(r, point) && Continues() && SameSwaps() && SameRuns() && Cleaned(old(catalog), catalog)
      ensures o.OK? ==> inserted == multiset(rows)
      ensures old(fates) == [] ==> o.OK? && fates == [] && Now() == old(Now())
    {
      var batch, k := [], 0;
      inserted := multiset{};
      o := Turn();
      while o.OK? && k < |rows|
        invariant 0 <= k <= |rows| && Holding(r, point) && Continues() && SameSwaps() && SameRuns()
        invariant Cleaned(old(catalog), catalog)
        invariant o.OK? ==> inserted + multiset(batch) == multiset(rows[..k])
        invariant old(fates) == [] ==> o.OK? && fates == [] && Now() == old(Now())
        decreases |rows| - k
      {
        assert rows[..k + 1] == rows[..k] + [rows[k]];
        batch, k := batch + [rows[k]], k + 1;
        if |batch| >= batchRows {
          o := Turn();
          inserted, batch := inserted + multiset(batch), [];
        }
      }
      if o.OK? {
        assert rows[..k] == rows;
        if batch != [] {
          o := Turn();
          inserted := inserted + multiset(batch);
        }
      }
    }

    // The import of one chunk in one transaction; an exception anywhere rolls everything back and
    // marks the chunk as failed.
    method ImportChunk(r: RunId, i: nat, batchRows: nat, ghost final: State) returns (o: Outcome)
      requires Holding(r, Loading(i)) && 0 < batchRows
      requires i < |runs[r].chunks| == |config.manifests[r].chunks| && !runs[r].chunks[i].IMPORTED?
      modifies this
      ensures Valid() && Continues() && SameSwaps() && versions == old(versions)
      ensures o.OK? ==>
        && Holding(r, Loading(i + 1))
        && runs == old(runs)[r := old(runs)[r].(chunks := old(runs)[r].chunks[i := IMPORTED(|config.manifests[r].chunks[i].rows|)])]
        && Staging(r) in catalog && Staging(r) in old(catalog) && old(catalog)[Staging(r)].BaseTable?
        && catalog[Staging(r)] == old(catalog)[Staging(r)].(rows := old(catalog)[Staging(r)].rows + multiset(config.manifests[r].chunks[i].rows))
      ensures !o.OK? ==> pc.At? && pc.run == r
      ensures old(Bound(final)) ==> Keeps(o, final)
    {
      var chunk := config.manifests[r].chunks[i];
      var inserted;
      o, inserted := InsertBatches(r, Loading(i), chunk.rows, batchRows);
      if o.OK? {
        o := Turn();
      }
      if o.OK? {
        o := Commit(r, i, inserted, final);
      }
      if o.RAISED? {
        var failing := FailChunk(r, i, final);
        o := if failing.DIED? then DIED else RAISED;
      }
    }

    // The row count is checked, the chunk is marked and the transaction commits.
    method Commit(r: RunId, i: nat, inserted: multiset<Row>, ghost final: State) returns (o: Outcome)
      requires Holding(r, Loading(i)) && i < |runs[r].chunks| == |config.manifests[r].chunks| && !runs[r].chunks[i].IMPORTED?
      requires inserted == multiset(config.manifests[r].chunks[i].rows)
      modifies this`catalog, this`runs, this`pc, this`states, this`steps
      ensures Continues() && !o.DIED?
      ensures o.OK? ==>
        && Holding(r, Loading(i + 1))
        && runs == old(runs)[r := old(runs)[r].(chunks := old(runs)[r].chunks[i := IMPORTED(|config.manifests[r].chunks[i].rows|)])]
        && Staging(r) in catalog && Staging(r) in old(catalog) && old(catalog)[Staging(r)].BaseTable?
        && catalog[Staging(r)] == old(catalog)[Staging(r)].(rows := old(catalog)[Staging(r)].rows + inserted)
      ensures o.RAISED? ==> Holding(r, Loading(i)) && Now() == old(Now()) && !PromotionOutcome.Importable(config, Now(), r, i)
      ensures o.OK? && old(Bound(final)) ==> Bound(final)
    {
      var chunk := config.manifests[r].chunks[i];
      if !chunk.wellFormed || |chunk.rows| != chunk.declared || Staging(r) !in catalog || !catalog[Staging(r)].BaseTable? {
        return RAISED;
      }
      ImportStep(config, Now(), r, i);
      var table := catalog[Staging(r)];
      catalog, runs, pc := catalog[Staging(r) := table.(rows := table.rows + inserted)],
                           runs[r := runs[r].(chunks := runs[r].chunks[i := IMPORTED(|chunk.rows|)])], At(r, Loading(i + 1));
      Record(STATEMENT(IMPORT_CHUNK), final);
      o := OK;
    }

    static lemma ImportStep(c: Config, s: State, r: RunId, i: nat)
      requires r in s.runs && r in c.manifests && s.pc == At(r, Loading(i))
      requires i < |s.runs[r].chunks| == |c.manifests[r].chunks| && !s.runs[r].chunks[i].IMPORTED?
      requires PromotionOutcome.Importable(c, s, r, i)
      ensures IsNext(c, s, STATEMENT(IMPORT_CHUNK))
      ensures var rows, table := c.manifests[r].chunks[i].rows, s.catalog[Staging(r)];
              Takes(c, s, STATEMENT(IMPORT_CHUNK),
                    s.(catalog := s.catalog[Staging(r) := table.(rows := table.rows + multiset(rows))],
                       runs := s.runs[r := s.runs[r].(chunks := s.runs[r].chunks[i := IMPORTED(|rows|)])], pc := At(r, Loading(i + 1))))
    {
    }

    static lemma RejectStep(c: Config, s: State, r: RunId, i: nat)
      requires r in s.runs && r in c.manifests && s.pc == At(r, Loading(i)) && i < |s.runs[r].chunks| && !s.runs[r].chunks[i].IMPORTED?
      requires i < |c.manifests[r].chunks| && !PromotionOutcome.Importable(c, s, r, i)
      ensures IsNext(c, s, STATEMENT(REJECT_CHUNK))
    {
    }

    method FailChunk(r: RunId, i: nat, ghost final: State) returns (o: Outcome)
      requires Holding(r, Loading(i)) && i < |runs[r].chunks| && !runs[r].chunks[i].IMPORTED?
      modifies this
      ensures Valid() && Continues() && SameSwaps() && versions == old(versions)
      ensures o.OK? ==> pc == At(r, Raising) && runs == old(runs)[r := old(runs)[r].(chunks := old(runs)[r].chunks[i := CHUNK_FAILED])]
      ensures !o.OK? ==> Holding(r, Loading(i)) && runs == old(runs)
      ensures old(Bound(final)) && i < |config.manifests[r].chunks| && !PromotionOutcome.Importable(config, old(Now()), r, i) ==>
        o.OK? && Failing(final)
    {
      o := Turn();
      if o.OK? {
        MarkChunkFailed(r, i, final);
      }
    }

    method MarkChunkFailed(r: RunId, i: nat, ghost final: State)
      requires Holding(r, Loading(i)) && i < |runs[r].chunks| && !runs[r].chunks[i].IMPORTED?
      modifies this`runs, this`pc, this`states, this`steps
      ensures Valid() && Continues() && pc == At(r, Raising)
      ensures runs == old(runs)[r := old(runs)[r].(chunks := old(runs)[r].chunks[i := CHUNK_FAILED])]
      ensures old(Bound(final)) && i < |config.manifests[r].chunks| && !PromotionOutcome.Importable(config, old(Now()), r, i) ==> Failing(final)
    {
      RejectedStep(config, Now(), r, i);
      if i < |config.manifests[r].chunks| && !PromotionOutcome.Importable(config, Now(), r, i) {
        RejectStep(config, Now(), r, i);
      }
      runs, pc := runs[r := runs[r].(chunks := runs[r].chunks[i := CHUNK_FAILED])], At(r, Raising);
      Record(STATEMENT(REJECT_CHUNK), final);
      Raised(final);
    }

    static lemma RejectedStep(c: Config, s: State, r: RunId, i: nat)
      requires r in s.runs && r in c.manifests && s.pc == At(r, Loading(i)) && i < |s.runs[r].chunks| && !s.runs[r].chunks[i].IMPORTED?
      ensures Takes(c, s, STATEMENT(REJECT_CHUNK), SetChunk(s, r, i, CHUNK_FAILED, Raising))
    {
    }
  }
}
