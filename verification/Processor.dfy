/**
  One call of process() of the destination (src/airgap_sync/destination/processor.py).
 */
module Processor {
  import opened Wrappers
  import opened Digest
  import opened Promotion
  import opened Destination
  import PromotionSafety
  import PromotionTheorems
  import PromotionRecovery
  import PromotionOutcome
  import PromotionCompletion

  // What a call returns to its caller: a status, a rejection of the run's files, that another process
  // holds a lock, an exception, or nothing because the process died.
  datatype Answer = Reported(status: Status) | NotValidated | Busy | Thrown | NoAnswer

  class DestinationProcessor {
    const db: DestinationDb
    const insertBatchRows: nat

    constructor (db: DestinationDb, insertBatchRows: nat)
      requires 0 < insertBatchRows
      ensures this.db == db && this.insertBatchRows == insertBatchRows
    {
      this.db, this.insertBatchRows := db, insertBatchRows;
    }

    // The files of the run are accepted.
    predicate Accepts(r: RunId)
      reads db
    {
      r in db.config.manifests && r in db.incoming && Validated(db.config.manifests[r])
    }

    // A run that is only cleaned up.
    predicate IsOver(r: RunId)
      reads db
    {
      r in db.runs && db.runs[r].status in {VERIFIED, SUPERSEDED}
    }

    // What is reported for the final state of a run.
    static function Report(final: State, r: RunId): Answer {
      Reported(if r in final.runs && final.runs[r].status in {VERIFIED, MISMATCH, SUPERSEDED} then final.runs[r].status else FAILED)
    }

    // Every call is part of a behaviour of the protocol, whatever fails and wherever it dies, and
    // leaves no lock behind. What it reports is what is recorded. If nothing fails and the locks are
    // free, it leaves the database in the outcome of the run, but for what it cleaned up, and reports
    // it. If another process holds a lock, nothing but a finished run's leftovers is touched.
    method Process(r: RunId, free: bool) returns (answer: Answer, ghost final: State)
      requires db.Valid() && (free <==> db.pc.Idle?) && 0 < insertBatchRows
      modifies db
      ensures db.Valid() && db.Continues() && db.pc == old(db.pc)
      ensures answer.Reported? ==> answer.status in {VERIFIED, MISMATCH, SUPERSEDED, FAILED}
      ensures answer.Reported? && answer.status != FAILED ==> r in db.runs && db.runs[r].status == answer.status
      ensures answer == Reported(VERIFIED) ==> db.HasVersion(r)
      ensures answer == Reported(MISMATCH) ==> r in db.config.manifests && !PromotionSafety.Faithful(db.config, db.config.manifests[r])
      ensures answer == Reported(SUPERSEDED) ==> r in db.superseded
      ensures answer.NotValidated? <==> !old(IsOver(r)) && !old(Accepts(r))
      ensures answer.Busy? <==> !old(IsOver(r)) && old(Accepts(r)) && !free
      ensures answer.NotValidated? || answer.Busy? ==> db.Now() == old(db.Now())
      ensures old(db.fates) == [] && old(IsOver(r)) ==>
        answer == Reported(old(db.runs)[r].status) && db.OnlyCleaned()
      ensures old(db.fates) == [] && !old(IsOver(r)) && old(Accepts(r)) && free ==>
        && DestinationDb.Leads(db.config, old(db.Now()).(pc := At(r, Entered)), final)
        && db.Settled(final) && answer == Report(final, r)
    {
      final := db.Now();
      if IsOver(r) {
        var status := db.runs[r].status;
        var o := Cleanup(r, status);
        answer := if o.OK? then Reported(status) else if o.RAISED? then Thrown else NoAnswer;
        Statuses(r);
        return;
      }
      if !Accepts(r) { return NotValidated, final; }
      if !free { return Busy, final; }
      db.TakeLocks(r);
      final := db.Destiny();
      var o, status := ProcessLocked(r, final);
      match o
      case OK =>
        db.ReleaseLocks();
        answer := Reported(status);
        Statuses(r);
      case RAISED =>
        NotFinal(r, final);
        o := db.FailRun(r);
        answer := if o.DIED? then NoAnswer else Reported(FAILED);
      case DIED =>
        db.LoseLocks();
        answer := NoAnswer;
    }

    // An exception leaves no final status behind.
    lemma NotFinal(r: RunId, final: State)
      requires db.Valid() && db.pc.At? && db.pc.run == r
      ensures db.Failing(final) ==> Report(final, r) == Reported(FAILED)
    {
      if db.Failing(final) {
        assert Fail(db.Now()) == final;
      }
    }

    // The outcome of an uninterrupted call for a run that can be imported, whatever its content is
    // and however old it is.
    lemma CallJudges(c: Config, start: State, r: RunId, final: State)
      requires DestinationDb.Leads(c, start, final) && start.pc == At(r, Entered) && r in start.incoming
      requires PromotionCompletion.Stageable(c, start, r)
      ensures PromotionOutcome.Judged(c, start, r, final)
    {
      assert PromotionSafety.Inv(c, start) && PromotionOutcome.Outcome(c, start) == final;
      PromotionOutcome.OutcomeOfRun(c, start, r);
    }

    // The outcome of an uninterrupted call for a run that only needs its own processing, in
    // particular for one that was interrupted during its swap.
    lemma CallVerifies(c: Config, start: State, r: RunId, final: State)
      requires DestinationDb.Leads(c, start, final) && start.pc == At(r, Entered) && PromotionCompletion.Working(c, start, r)
      ensures PromotionRecovery.Done(final, r)
    {
      assert PromotionSafety.Inv(c, start) && PromotionOutcome.Outcome(c, start) == final;
      PromotionOutcome.UninterruptedProcessVerifies(c, start, r);
    }

    lemma Statuses(r: RunId)
      requires db.Valid() && r in db.runs
      ensures r in db.config.manifests
      ensures db.runs[r].status == VERIFIED ==> db.HasVersion(r)
      ensures db.runs[r].status == MISMATCH ==> !PromotionSafety.Faithful(db.config, db.config.manifests[r])
      ensures db.runs[r].status == SUPERSEDED ==> r in db.superseded
    {
      PromotionTheorems.Reachable(db.config, db.states, db.steps, |db.states| - 1);
      PromotionTheorems.FinalStatusRecorded(db.config, db.states, db.steps, |db.states| - 1);
      assert PromotionSafety.RunOk(db.config, r, db.runs[r]);
      db.HasVersionMeans(r);
    }

    method ProcessLocked(r: RunId, ghost final: State) returns (o: Outcome, status: Status)
      requires db.Valid() && db.pc == At(r, Entered) && r in db.config.manifests && 0 < insertBatchRows
      modifies db
      ensures db.Valid() && db.Continues() && db.pc.At? && db.pc.run == r
      ensures o.OK? ==> Release(db.Now()).Some? && r in db.runs && db.runs[r].status == status
      ensures o.OK? ==> status in {VERIFIED, MISMATCH, SUPERSEDED}
      ensures old(db.Bound(final)) ==> (o.OK? && db.Settled(final)) || (o.RAISED? && db.Failing(final))
    {
      ghost var firstTime := r !in db.runs;
      var existing := r in db.runs;
      status := FAILED;
      o := db.RegisterValidatedRun(r, final);
      if o.OK? { o, status := ProcessRegistered(r, existing, firstTime, final); }
    }

    // What the status of the run calls for.
    method ProcessRegistered(r: RunId, existing: bool, ghost firstTime: bool, ghost final: State) returns (o: Outcome, status: Status)
      requires db.Holding(r, Registered(firstTime)) && firstTime == !existing && 0 < insertBatchRows
      modifies db
      ensures db.Valid() && db.Continues() && db.pc.At? && db.pc.run == r
      ensures o.OK? ==> Release(db.Now()).Some? && r in db.runs && db.runs[r].status == status
      ensures o.OK? ==> status in {VERIFIED, MISMATCH, SUPERSEDED}
      ensures old(db.Bound(final)) ==> (o.OK? && db.Settled(final)) || (o.RAISED? && db.Failing(final))
    {
      o, status := OK, db.runs[r].status;
      if status in {VERIFIED, MISMATCH, SUPERSEDED} {
        db.Released(final);
        if status == VERIFIED { o := Cleanup(r, VERIFIED); }
        return;
      }
      if status == SWAPPING {
        o, status := RecoverSwap(r, firstTime, final);
        return;
      }
      if status !in {STAGED, VERIFYING} {
        o := Stage(r, existing, final);
        if !o.OK? { return; }
      } else {
        ResumeStep(db.config, db.Now(), r, firstTime);
        if !db.TableExists(Staging(r)) {
          db.Stuck(STATEMENT(RESUME), final);
          o := RAISED;
          return;
        }
        db.Note(RESUME, ToVerify, final);
      }
      o, status := VerifyAndPromote(r, final);
    }

    method Stage(r: RunId, existing: bool, ghost final: State) returns (o: Outcome)
      requires db.Holding(r, Registered(!existing)) && db.runs[r].status in {VALIDATED, IMPORTING, FAILED} && 0 < insertBatchRows
      modifies db
      ensures db.Valid() && db.Continues() && db.pc.At? && db.pc.run == r
      ensures o.OK? ==> db.Holding(r, ToVerify)
      ensures old(db.Bound(final)) ==> db.Keeps(o, final)
    {
      o := OpenStaging(r, existing, final);
      if o.OK? { o := db.BeginImport(r, final); }
      if o.OK? { o := Load(r, final); }
    }

    // All chunks are imported, and counted.
    method Load(r: RunId, ghost final: State) returns (o: Outcome)
      requires db.Holding(r, Loading(0)) && 0 < insertBatchRows
      modifies db
      ensures db.Valid() && db.Continues() && db.pc.At? && db.pc.run == r
      ensures o.OK? ==> db.Holding(r, ToVerify)
      ensures old(db.Bound(final)) ==> db.Keeps(o, final)
    {
      o := ImportChunks(r, final);
      if o.OK? { o := db.CompleteStaged(r, final); }
    }

    // A staging table and the record of what was imported into it come together.
    method OpenStaging(r: RunId, existing: bool, ghost final: State) returns (o: Outcome)
      requires db.Holding(r, Registered(!existing)) && db.runs[r].status in {VALIDATED, IMPORTING, FAILED}
      modifies db
      ensures db.Valid() && db.Continues() && db.pc.At? && db.pc.run == r
      ensures o.OK? ==> db.Holding(r, Created)
      ensures old(db.Bound(final)) ==> db.Keeps(o, final)
    {
      var stagingExists := db.TableExists(Staging(r));
      OpenStep(db.config, db.Now(), r, existing);
      if (!existing && stagingExists) || (existing && !stagingExists && AnyImported(db.runs[r].chunks))
         || (!stagingExists && Staging(r) in db.catalog) {
        db.Stuck(STATEMENT(OPEN_STAGING), final);
        return RAISED;
      }
      if stagingExists {
        db.Note(OPEN_STAGING, Created, final);
        o := OK;
      } else {
        o := db.CreateStagingTable(r, !existing, final);
      }
    }

    // --- What the next statement is, and whether it is possible ---

    static lemma ResumeStep(c: Config, s: State, r: RunId, firstTime: bool)
      requires s.pc == At(r, Registered(firstTime)) && r in c.manifests && r in s.runs && s.runs[r].status in {STAGED, VERIFYING}
      ensures DestinationDb.IsNext(c, s, STATEMENT(RESUME))
      ensures if IsTable(s, Staging(r)) then DestinationDb.Takes(c, s, STATEMENT(RESUME), s.(pc := At(r, ToVerify)))
              else DestinationDb.Impossible(c, s, STATEMENT(RESUME))
    {
    }

    static lemma SkipStep(c: Config, s: State, r: RunId, i: nat)
      requires s.pc == At(r, Loading(i)) && r in c.manifests && r in s.runs && i < |s.runs[r].chunks| && s.runs[r].chunks[i].IMPORTED?
      ensures DestinationDb.IsNext(c, s, STATEMENT(SKIP_CHUNK))
      ensures DestinationDb.Takes(c, s, STATEMENT(SKIP_CHUNK), s.(pc := At(r, Loading(i + 1))))
    {
    }

    static lemma CompareStep(c: Config, s: State, r: RunId)
      requires s.pc == At(r, Checking) && r in c.manifests && r in s.runs
      ensures DestinationDb.IsNext(c, s, STATEMENT(COMPARE_DIGEST))
      ensures if IsTable(s, Staging(r))
              then DestinationDb.Takes(c, s, STATEMENT(COMPARE_DIGEST), s.(pc := At(r, Compared(Matches(c, r, s.catalog[Staging(r)].rows)))))
              else DestinationDb.Impossible(c, s, STATEMENT(COMPARE_DIGEST))
    {
    }

    static lemma ProceedStep(c: Config, s: State)
      requires AtOrdering(s) && s.pc.run in c.manifests
      ensures DestinationDb.IsNext(c, s, STATEMENT(PROCEED))
      ensures var r, latest := s.pc.run, LatestRun(s.versions);
              match Compare(r, c.manifests[r].createdAt, Latest(s.versions))
              case OLDER => DestinationDb.Takes(c, s, STATEMENT(PROCEED), s.(pc := At(r, Older)))
              case SAME_TIMESTAMP_DIFFERENT_RUN => DestinationDb.Impossible(c, s, STATEMENT(PROCEED))
              case _ => DestinationDb.Takes(c, s, STATEMENT(PROCEED), s.(pc := At(r, Continuation(s.pc.point, Before(s, r), latest))))
    {
    }

    static lemma NoSwapState(c: Config, s: State, r: RunId, firstTime: bool)
      requires s.pc == At(r, Registered(firstTime)) && r in c.manifests && r in s.runs && s.runs[r].status == SWAPPING
      requires !Before(s, r) && !After(s, r)
      ensures DestinationDb.IsNext(c, s, STATEMENT(PROCEED)) && DestinationDb.Impossible(c, s, STATEMENT(PROCEED))
    {
    }

    static lemma UnswappableStep(c: Config, s: State, r: RunId, latest: Option<RunId>)
      requires s.pc == At(r, Ordered(latest)) && r in c.manifests && r in s.runs
      requires Live in s.catalog && (!IsTable(s, Live) || Backup(r) in s.catalog)
      ensures DestinationDb.IsNext(c, s, STATEMENT(PREPARE_SWAPPING)) && DestinationDb.Impossible(c, s, STATEMENT(PREPARE_SWAPPING))
    {
    }

    static lemma OtherContentStep(c: Config, s: State, r: RunId, latest: Option<RunId>)
      requires s.pc == At(r, RecoverAfter(latest)) && r in c.manifests && r in s.runs && IsTable(s, Live)
      requires !Matches(c, r, s.catalog[Live].rows)
      ensures DestinationDb.IsNext(c, s, STATEMENT(RECORD_RECOVERED)) && DestinationDb.Impossible(c, s, STATEMENT(RECORD_RECOVERED))
    {
    }

    static lemma OpenStep(c: Config, s: State, r: RunId, existing: bool)
      requires s.pc == At(r, Registered(!existing)) && r in c.manifests && r in s.runs && s.runs[r].status in {VALIDATED, IMPORTING, FAILED}
      ensures DestinationDb.IsNext(c, s, STATEMENT(OPEN_STAGING))
      ensures if IsTable(s, Staging(r)) then
                if existing then DestinationDb.Takes(c, s, STATEMENT(OPEN_STAGING), s.(pc := At(r, Created)))
                else DestinationDb.Impossible(c, s, STATEMENT(OPEN_STAGING))
              else (existing && AnyImported(s.runs[r].chunks)) || Staging(r) in s.catalog ==>
                DestinationDb.Impossible(c, s, STATEMENT(OPEN_STAGING))
    {
    }

    method ImportChunks(r: RunId, ghost final: State) returns (o: Outcome)
      requires db.Holding(r, Loading(0)) && 0 < insertBatchRows
      modifies db
      ensures db.Valid() && db.Continues() && db.pc.At? && db.pc.run == r
      ensures o.OK? ==> r in db.runs && db.Holding(r, Loading(|db.runs[r].chunks|))
      ensures old(db.Bound(final)) ==> db.Keeps(o, final)
    {
      Widths(r);
      o := OK;
      var i := 0;
      while i < |db.config.manifests[r].chunks|
        invariant 0 <= i <= |db.config.manifests[r].chunks| && o.OK?
        invariant db.Holding(r, Loading(i)) && db.Continues()
        invariant |db.runs[r].chunks| == |db.config.manifests[r].chunks|
        invariant old(db.Bound(final)) ==> db.Bound(final)
      {
        o := ImportNext(r, i, final);
        if !o.OK? { return; }
        i := i + 1;
      }
    }

    // A chunk that is imported already is skipped.
    method ImportNext(r: RunId, i: nat, ghost final: State) returns (o: Outcome)
      requires db.Holding(r, Loading(i)) && i < |db.runs[r].chunks| == |db.config.manifests[r].chunks| && 0 < insertBatchRows
      modifies db
      ensures db.Valid() && db.Continues() && db.pc.At? && db.pc.run == r
      ensures o.OK? ==> r in db.runs && db.Holding(r, Loading(i + 1)) && |db.runs[r].chunks| == |old(db.runs)[r].chunks|
      ensures old(db.Bound(final)) ==> db.Keeps(o, final)
    {
      o := OK;
      if db.runs[r].chunks[i].IMPORTED? {
        SkipStep(db.config, db.Now(), r, i);
        db.Note(SKIP_CHUNK, Loading(i + 1), final);
      } else {
        o := db.ImportChunk(r, i, insertBatchRows, final);
      }
    }

    lemma Widths(r: RunId)
      requires db.Valid() && r in db.runs
      ensures r in db.config.manifests && |db.runs[r].chunks| == |db.config.manifests[r].chunks|
    {
      PromotionTheorems.Reachable(db.config, db.states, db.steps, |db.states| - 1);
      assert PromotionSafety.RunOk(db.config, r, db.runs[r]);
    }

    method VerifyAndPromote(r: RunId, ghost final: State) returns (o: Outcome, status: Status)
      requires db.Holding(r, ToVerify)
      modifies db
      ensures db.Valid() && db.Continues() && db.pc.At? && db.pc.run == r
      ensures o.OK? ==> Release(db.Now()).Some? && r in db.runs && db.runs[r].status == status
      ensures o.OK? ==> status in {VERIFIED, MISMATCH, SUPERSEDED}
      ensures old(db.Bound(final)) ==> (o.OK? && db.Settled(final)) || (o.RAISED? && db.Failing(final))
    {
      var matched;
      status := FAILED;
      o, matched := Verify(r, final);
      if !o.OK? { return; }
      if !matched {
        db.Released(final);
        status := MISMATCH;
        return;
      }
      o, status := OrderAndPromote(r, final);
    }

    // The verified run is promoted, unless a newer one was.
    method OrderAndPromote(r: RunId, ghost final: State) returns (o: Outcome, status: Status)
      requires db.Holding(r, Matched)
      modifies db
      ensures db.Valid() && db.Continues() && db.pc.At? && db.pc.run == r
      ensures o.OK? ==> Release(db.Now()).Some? && r in db.runs && db.runs[r].status == status
      ensures o.OK? ==> status in {VERIFIED, SUPERSEDED}
      ensures old(db.Bound(final)) ==> (o.OK? && db.Settled(final)) || (o.RAISED? && db.Failing(final))
    {
      status := FAILED;
      var relation, latest;
      o, relation, latest := Ordering(r, Before(db.Now(), r), final);
      if !o.OK? { return; }
      if relation == OLDER {
        o := Conclude(r, SUPERSEDED, final);
        status := SUPERSEDED;
      } else {
        o := Promote(r, latest, final);
        if o.OK? { o := Conclude(r, VERIFIED, final); }
        status := VERIFIED;
      }
    }

    // The staging table's digest is compared with the manifest.
    method Verify(r: RunId, ghost final: State) returns (o: Outcome, matched: bool)
      requires db.Holding(r, ToVerify)
      modifies db
      ensures db.Valid() && db.Continues() && db.pc.At? && db.pc.run == r
      ensures o.OK? ==> db.Holding(r, if matched then Matched else Returning)
      ensures o.OK? && !matched ==> db.runs[r].status == MISMATCH
      ensures old(db.Bound(final)) ==> db.Keeps(o, final)
    {
      matched := false;
      o := db.SetVerifying(r, final);
      if !o.OK? { return; }
      CompareStep(db.config, db.Now(), r);
      if !db.TableExists(Staging(r)) {
        db.Stuck(STATEMENT(COMPARE_DIGEST), final);
        o := RAISED;
        return;
      }
      matched := db.config.summarize(db.catalog[Staging(r)].rows) == db.config.manifests[r].summary;
      db.Note(COMPARE_DIGEST, Compared(matched), final);
      o := db.RecordVerification(r, matched, final);
    }

    // Where a run that may be promoted continues: with the swap, or with its recovery.
    static function Continuation(point: Point, before: bool, latest: Option<RunId>): Point {
      if point.Matched? then Ordered(latest) else if before then Prepared(latest) else RecoverAfter(latest)
    }

    // The run is ordered against the latest version; an older one is superseded.
    method Ordering(r: RunId, ghost before: bool, ghost final: State) returns (o: Outcome, relation: Relation, latest: Option<RunId>)
      requires db.Valid() && db.pc.At? && db.pc.run == r && r in db.config.manifests
      requires AtOrdering(db.Now()) && before == Before(db.Now(), r)
      modifies db
      ensures db.Valid() && db.Continues() && db.pc.At? && db.pc.run == r
      ensures o.OK? ==> relation == Compare(r, db.config.manifests[r].createdAt, Latest(old(db.versions)))
      ensures o.OK? ==> relation in {NO_PREVIOUS, SAME_RUN, NEWER, OLDER}
      ensures o.OK? && relation != OLDER ==>
        && db.Holding(r, Continuation(old(db.pc).point, before, latest))
        && db.Now() == old(db.Now()).(pc := db.pc)
      ensures o.OK? && relation == OLDER ==> db.Holding(r, Returning) && db.runs[r].status == SUPERSEDED
      ensures old(db.Bound(final)) ==> db.Keeps(o, final)
    {
      var version, created := Latest(db.versions), db.config.manifests[r].createdAt;
      latest := if version.None? then None else Some(version.value.run);
      relation :=
        if version.None? then NO_PREVIOUS
        else if version.value.run == r then SAME_RUN
        else if created < version.value.createdAt then OLDER
        else if created == version.value.createdAt then SAME_TIMESTAMP_DIFFERENT_RUN
        else NEWER;
      ProceedStep(db.config, db.Now());
      o := OK;
      if relation == OLDER {
        db.Note(PROCEED, Older, final);
        o := db.SetSuperseded(r, final);
      } else if relation == SAME_TIMESTAMP_DIFFERENT_RUN {
        db.Stuck(STATEMENT(PROCEED), final);
        o := RAISED;
      } else {
        db.Note(PROCEED, Continuation(db.pc.point, before, latest), final);
      }
    }

    method Promote(r: RunId, latest: Option<RunId>, ghost final: State) returns (o: Outcome)
      requires db.Holding(r, Ordered(latest))
      modifies db
      ensures db.Valid() && db.Continues() && db.pc.At? && db.pc.run == r
      ensures o.OK? ==> db.Holding(r, Returning) && db.runs[r].status == VERIFIED
      ensures old(db.Bound(final)) ==> db.Keeps(o, final)
    {
      var targetExisted := Live in db.catalog;
      if targetExisted && (!db.catalog[Live].BaseTable? || Backup(r) in db.catalog) {
        UnswappableStep(db.config, db.Now(), r, latest);
        db.Stuck(STATEMENT(PREPARE_SWAPPING), final);
        return RAISED;
      }
      o := db.PrepareSwapping(r, targetExisted, targetExisted, latest, final);
      if !o.OK? { return; }
      o := db.RenameForPromotion(r, targetExisted, latest, final);
      if !o.OK? { return; }
      o := db.FinalizeVerified(r, latest, final);
    }

    // The tables tell whether the interrupted rename happened.
    method SwapState(r: RunId) returns (before: bool, after: bool)
      requires db.Valid() && r in db.runs
      ensures before == Before(db.Now(), r) && after == After(db.Now(), r)
      ensures db.runs[r].status == SWAPPING ==> !(before && after)
      ensures db.runs[r].status == SWAPPING && before ==>
        r in db.config.manifests && Matches(db.config, r, db.catalog[Staging(r)].rows)
      ensures db.runs[r].status == SWAPPING && after && r !in db.superseded && !db.HasVersion(r) ==> Swaps(db.Now(), r) > 0
    {
      var run := db.runs[r];
      before :=
        && db.TableExists(Staging(r))
        && (|| (run.targetExisted == Some(false) && Live !in db.catalog)
            || (run.targetExisted == Some(true) && db.TableExists(Live) && (!run.backup || Backup(r) !in db.catalog)));
      after :=
        && Staging(r) !in db.catalog && db.TableExists(Live)
        && (|| (run.targetExisted == Some(false) && !run.backup)
            || (run.targetExisted == Some(true) && run.backup && db.TableExists(Backup(r))));
      TellsApart(r);
    }

    lemma TellsApart(r: RunId)
      requires db.Valid() && r in db.runs
      ensures db.runs[r].status == SWAPPING ==>
        && r in db.config.manifests && !(Before(db.Now(), r) && After(db.Now(), r))
        && (Before(db.Now(), r) ==> Matches(db.config, r, db.catalog[Staging(r)].rows))
        && (After(db.Now(), r) && r !in db.superseded && !db.HasVersion(r) ==> Swaps(db.Now(), r) > 0)
    {
      if db.runs[r].status == SWAPPING {
        PromotionTheorems.SwapStateMeans(db.config, db.states, db.steps, |db.states| - 1, r);
        db.HasVersionMeans(r);
      }
    }

    method RecoverSwap(r: RunId, ghost firstTime: bool, ghost final: State) returns (o: Outcome, status: Status)
      requires db.Holding(r, Registered(firstTime)) && db.runs[r].status == SWAPPING
      modifies db
      ensures db.Valid() && db.Continues() && db.pc.At? && db.pc.run == r
      ensures o.OK? ==> Release(db.Now()).Some? && r in db.runs && db.runs[r].status == status
      ensures o.OK? ==> status in {VERIFIED, SUPERSEDED}
      ensures old(db.Bound(final)) ==> (o.OK? && db.Settled(final)) || (o.RAISED? && db.Failing(final))
    {
      var before, after := SwapState(r);
      status := FAILED;
      if !before && !after {
        NoSwapState(db.config, db.Now(), r, firstTime);
        db.Stuck(STATEMENT(PROCEED), final);
        o := RAISED;
        return;
      }
      var relation, latest;
      o, relation, latest := Ordering(r, before, final);
      if !o.OK? { return; }
      if relation == OLDER {
        o := Conclude(r, SUPERSEDED, final);
        status := SUPERSEDED;
      } else {
        o := FinishSwap(r, before, latest, final);
        if o.OK? { o := Conclude(r, VERIFIED, final); }
        status := VERIFIED;
      }
    }

    method FinishSwap(r: RunId, before: bool, latest: Option<RunId>, ghost final: State) returns (o: Outcome)
      requires db.Holding(r, if before then Prepared(latest) else RecoverAfter(latest)) && (!before ==> After(db.Now(), r))
      modifies db
      ensures db.Valid() && db.Continues() && db.pc.At? && db.pc.run == r
      ensures o.OK? ==> db.Holding(r, Returning) && db.runs[r].status == VERIFIED
      ensures old(db.Bound(final)) ==> db.Keeps(o, final)
    {
      if before {
        o := db.RenameForPromotion(r, db.runs[r].backup, latest, final);
      } else {
        o := RestoreSwap(r, latest, final);
      }
      if o.OK? { o := db.FinalizeVerified(r, latest, final); }
    }

    // After the rename: the live table is verified, and the intent written back.
    method RestoreSwap(r: RunId, latest: Option<RunId>, ghost final: State) returns (o: Outcome)
      requires db.Holding(r, RecoverAfter(latest)) && After(db.Now(), r)
      modifies db
      ensures db.Valid() && db.Continues() && db.pc.At? && db.pc.run == r
      ensures o.OK? ==> db.Holding(r, Renamed(latest))
      ensures old(db.Bound(final)) ==> db.Keeps(o, final)
    {
      var matched := db.config.summarize(db.catalog[Live].rows) == db.config.manifests[r].summary;
      if !matched {
        OtherContentStep(db.config, db.Now(), r, latest);
        db.Stuck(STATEMENT(RECORD_RECOVERED), final);
        return RAISED;
      }
      o := db.RecordRecovered(r, latest, final);
      if !o.OK? { return; }
      o := db.PrepareSwapping(r, db.runs[r].targetExisted == Some(true), db.runs[r].backup, latest, final);
    }

    // The run is finished: its locks can be released once it is cleaned up.
    method Conclude(r: RunId, status: Status, ghost final: State) returns (o: Outcome)
      requires db.Holding(r, Returning) && db.runs[r].status == status && status in {VERIFIED, SUPERSEDED}
      modifies db
      ensures db.OnlyCleaned()
      ensures old(db.Bound(final)) ==> o.OK? && db.Settled(final)
    {
      db.Released(final);
      o := Cleanup(r, status);
    }

    // Leftovers are removed; a removal that fails is recorded and tried again by a later call.
    method Cleanup(r: RunId, status: Status) returns (o: Outcome)
      requires db.Valid() && r in db.runs && db.runs[r].status == status && status in {VERIFIED, SUPERSEDED}
      modifies db
      ensures db.OnlyCleaned()
      ensures old(db.fates) == [] ==> o.OK? && db.fates == []
    {
      if status == VERIFIED {
        o := RetryCleanup(r);
      } else {
        o := CleanupSuperseded(r);
      }
    }

    method RetryCleanup(r: RunId) returns (o: Outcome)
      requires db.Valid() && r in db.runs && db.runs[r].status == VERIFIED
      modifies db
      ensures db.OnlyCleaned()
      ensures old(db.fates) == [] ==> o.OK? && db.fates == []
      ensures old(db.fates) == [] && r !in old(db.backupsCleaned) && db.runs[r].backup ==> Backup(r) !in db.catalog
      ensures old(db.fates) == [] ==> r in db.incomingCleaned && (r !in old(db.incomingCleaned) ==> r !in db.incoming)
    {
      o := OK;
      if r !in db.backupsCleaned {
        o := CleanupBackup(r);
        if !o.OK? { return; }
      }
      if r !in db.incomingCleaned {
        o := CleanupIncoming(r);
      }
    }

    method CleanupBackup(r: RunId) returns (o: Outcome)
      requires db.Valid() && r in db.runs && db.runs[r].status == VERIFIED
      modifies db
      ensures db.OnlyCleaned()
      ensures old(db.fates) == [] ==> o.OK? && db.fates == [] && db.incomingCleaned == old(db.incomingCleaned)
      ensures old(db.fates) == [] && db.runs[r].backup ==> Backup(r) !in db.catalog
    {
      Statuses(r);
      o := OK;
      if db.runs[r].backup && Backup(r) in db.catalog {
        o := db.RemoveLeftover(DROP_BACKUP(r));
      }
      if !o.DIED? { o := db.RecordBackupCleanup(r, o.OK?); }
    }

    method CleanupIncoming(r: RunId) returns (o: Outcome)
      requires db.Valid() && r in db.runs && db.runs[r].status == VERIFIED
      modifies db
      ensures db.OnlyCleaned()
      ensures old(db.fates) == [] ==> o.OK? && db.fates == [] && r in db.incomingCleaned && r !in db.incoming
    {
      Statuses(r);
      o := db.RemoveLeftover(UNLINK(r));
      if !o.DIED? { o := db.RecordIncomingCleanup(r, o.OK?); }
    }

    method CleanupSuperseded(r: RunId) returns (o: Outcome)
      requires db.Valid() && r in db.runs && db.runs[r].status == SUPERSEDED
      modifies db
      ensures db.OnlyCleaned()
      ensures old(db.fates) == [] ==> o.OK? && db.fates == []
      ensures old(db.fates) == [] && r !in old(db.incomingCleaned) ==>
        r in db.incomingCleaned && r !in db.incoming && !db.TableExists(Staging(r))
    {
      Statuses(r);
      o := OK;
      if r in db.incomingCleaned { return; }
      if db.TableExists(Staging(r)) {
        o := db.RemoveLeftover(DROP_STAGING(r));
      }
      if o.OK? { o := db.RemoveLeftover(UNLINK(r)); }
      if !o.DIED? { o := db.RecordIncomingCleanup(r, o.OK?); }
    }
  }
}
