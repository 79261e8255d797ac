/**
  The destination protocol of one table as a step machine: import, verify, promote, recover
  (src/airgap_sync/destination/processor.py, src/airgap_sync/destination/mysql.py).

  A step is one durable statement, or one transaction, of the process holding the table lock,
  or the failure or crash of that process, or a statement of a process cleaning up without the
  lock. Every interleaving, and a crash between any two statements, is therefore a behaviour.
 */
module Promotion {
  import opened Wrappers
  import opened Digest

  type RunId = nat

  // --- What does not change during a behaviour ---

  // A chunk file: the rows it decodes to, whether all its lines decode with the right width,
  // and the number of rows the manifest declares for it.
  datatype Chunk = Chunk(rows: seq<Row>, wellFormed: bool, declared: nat)

  datatype Manifest = Manifest(createdAt: int, rowCount: nat, chunks: seq<Chunk>, summary: Summary)

  // summarize is the digest of a table's rows; what it computes does not matter here.
  datatype Config = Config(
    summarize: multiset<Row> -> Summary, manifests: map<RunId, Manifest>, original: Option<Object>)

  // The part of validate_run that matters here.
  predicate Validated(m: Manifest) {
    m.rowCount == m.summary.rowCount
  }

  // --- The database ---

  datatype Name = Live | Staging(run: RunId) | Backup(run: RunId)

  // origin tells in which run's staging table a table was filled; None for the first live table.
  datatype Object = BaseTable(rows: multiset<Row>, origin: Option<RunId>) | View

  datatype Status = VALIDATED | IMPORTING | STAGED | VERIFYING | SWAPPING | VERIFIED | MISMATCH | SUPERSEDED | FAILED

  datatype ChunkRow = PENDING | IMPORTED(rows: nat) | CHUNK_FAILED

  datatype RunRow = RunRow(status: Status, chunks: seq<ChunkRow>, targetExisted: Option<bool>, backup: bool)

  datatype Version = Version(
    run: RunId, createdAt: int, rowCount: nat,
    previous: Option<RunId>, previousRows: Option<nat>, netChange: Option<int>)

  // Where the holder of the table lock is. latest is the run of the version it ordered against.
  datatype Point =
    | Entered
    | Registered(firstTime: bool)
    | Created
    | Loading(next: nat)
    | ToVerify
    | Checking
    | Compared(matched: bool)
    | Matched
    | Older
    | Ordered(latest: Option<RunId>)
    | Prepared(latest: Option<RunId>)
    | Renamed(latest: Option<RunId>)
    | RecoverAfter(latest: Option<RunId>)
    | Restored(latest: Option<RunId>)
    | Raising
    | Returning

  datatype Pc = Idle | At(run: RunId, point: Point)

  // superseded and swaps only record history: the runs ever marked SUPERSEDED, and how often
  // each run was renamed into live.
  datatype State = State(
    catalog: map<Name, Object>, runs: map<RunId, RunRow>, versions: seq<Version>,
    incoming: set<RunId>, pc: Pc, superseded: set<RunId>, swaps: map<RunId, nat>)

  function Swaps(s: State, r: RunId): nat {
    if r in s.swaps then s.swaps[r] else 0
  }

  predicate IsTable(s: State, n: Name) {
    n in s.catalog && s.catalog[n].BaseTable?
  }

  // --- The tests the code makes ---

  function Latest(versions: seq<Version>): Option<Version> {
    if versions == [] then None
    else
      var earlier, last := Latest(versions[..|versions| - 1]), versions[|versions| - 1];
      if earlier.None? || last.createdAt >= earlier.value.createdAt then Some(last) else earlier
  }

  function LatestRun(versions: seq<Version>): Option<RunId> {
    var latest := Latest(versions);
    if latest.None? then None else Some(latest.value.run)
  }

  datatype Relation = NO_PREVIOUS | SAME_RUN | NEWER | OLDER | SAME_TIMESTAMP_DIFFERENT_RUN

  function Compare(r: RunId, createdAt: int, latest: Option<Version>): Relation {
    if latest.None? then NO_PREVIOUS
    else if latest.value.run == r then SAME_RUN
    else if createdAt < latest.value.createdAt then OLDER
    else if createdAt == latest.value.createdAt then SAME_TIMESTAMP_DIFFERENT_RUN
    else NEWER
  }

  predicate MayPromote(c: Config, s: State, r: RunId)
    requires r in c.manifests
  {
    Compare(r, c.manifests[r].createdAt, Latest(s.versions)) in {NO_PREVIOUS, SAME_RUN, NEWER}
  }

  predicate Matches(c: Config, r: RunId, rows: multiset<Row>)
    requires r in c.manifests
  {
    c.summarize(rows) == c.manifests[r].summary
  }

  predicate AnyImported(chunks: seq<ChunkRow>) {
    exists i :: 0 <= i < |chunks| && chunks[i].IMPORTED?
  }

  predicate AllImported(chunks: seq<ChunkRow>) {
    forall i :: 0 <= i < |chunks| ==> chunks[i].IMPORTED?
  }

  function ImportedTotal(chunks: seq<ChunkRow>): nat {
    if chunks == [] then 0
    else
      var last := chunks[|chunks| - 1];
      ImportedTotal(chunks[..|chunks| - 1]) + (if last.IMPORTED? then last.rows else 0)
  }

  predicate Before(s: State, r: RunId)
    requires r in s.runs
  {
    && IsTable(s, Staging(r))
    && (|| (s.runs[r].targetExisted == Some(false) && Live !in s.catalog)
        || (s.runs[r].targetExisted == Some(true) && IsTable(s, Live) && (s.runs[r].backup ==> Backup(r) !in s.catalog)))
  }

  predicate After(s: State, r: RunId)
    requires r in s.runs
  {
    && Staging(r) !in s.catalog
    && IsTable(s, Live)
    && (|| (s.runs[r].targetExisted == Some(false) && !s.runs[r].backup)
        || (s.runs[r].targetExisted == Some(true) && s.runs[r].backup && IsTable(s, Backup(r))))
  }

  function VersionRuns(s: State): set<RunId> {
    set i | 0 <= i < |s.versions| :: s.versions[i].run
  }

  // --- The statements of the process holding the lock. None: the statement raises. ---

  function SetStatus(s: State, r: RunId, status: Status, point: Point): State
    requires r in s.runs
  {
    s.(runs := s.runs[r := s.runs[r].(status := status)], pc := At(r, point))
  }

  predicate Holds(s: State, r: RunId) {
    s.pc.At? && s.pc.run == r
  }

  function Lock(c: Config, s: State, r: RunId): Option<State> {
    if s.pc.Idle? && r in c.manifests && Validated(c.manifests[r]) && r in s.incoming
    then Some(s.(pc := At(r, Entered))) else None
  }

  function Register(c: Config, s: State): Option<State>
    requires s.pc.At? && s.pc.run in c.manifests && s.pc.point.Entered?
  {
    var r := s.pc.run;
    if r in s.runs then Some(s.(pc := At(r, Registered(false))))
    else
      var chunks := seq(|c.manifests[r].chunks|, _ => PENDING);
      Some(s.(runs := s.runs[r := RunRow(VALIDATED, chunks, None, false)], pc := At(r, Registered(true))))
  }

  function Resume(s: State): Option<State>
    requires s.pc.At? && s.pc.run in s.runs && s.pc.point.Registered?
  {
    var r := s.pc.run;
    if s.runs[r].status in {STAGED, VERIFYING} && IsTable(s, Staging(r))
    then Some(s.(pc := At(r, ToVerify))) else None
  }

  function OpenStaging(s: State): Option<State>
    requires s.pc.At? && s.pc.run in s.runs && s.pc.point.Registered?
  {
    var r, row, firstTime := s.pc.run, s.runs[s.pc.run], s.pc.point.firstTime;
    if row.status !in {VALIDATED, IMPORTING, FAILED} then None
    else if IsTable(s, Staging(r)) then
      if firstTime then None else Some(s.(pc := At(r, Created)))
    else if !firstTime && AnyImported(row.chunks) then None
    else if Staging(r) in s.catalog then None
    else Some(s.(catalog := s.catalog[Staging(r) := BaseTable(multiset{}, Some(r))], pc := At(r, Created)))
  }

  function BeginImport(s: State): Option<State>
    requires s.pc.At? && s.pc.run in s.runs && s.pc.point.Created?
  {
    var r := s.pc.run;
    Some(SetStatus(s, r, IMPORTING, Loading(0)))
  }

  function SkipChunk(s: State): Option<State>
    requires s.pc.At? && s.pc.run in s.runs && s.pc.point.Loading?
  {
    var r, i := s.pc.run, s.pc.point.next;
    if i < |s.runs[r].chunks| && s.runs[r].chunks[i].IMPORTED?
    then Some(s.(pc := At(r, Loading(i + 1)))) else None
  }

  function SetChunk(s: State, r: RunId, i: nat, chunk: ChunkRow, point: Point): State
    requires r in s.runs && i < |s.runs[r].chunks|
  {
    s.(runs := s.runs[r := s.runs[r].(chunks := s.runs[r].chunks[i := chunk])], pc := At(r, point))
  }

  // One committed transaction: the rows of the chunk and the mark that it was imported.
  function ImportChunk(c: Config, s: State): Option<State>
    requires s.pc.At? && s.pc.run in s.runs && s.pc.run in c.manifests && s.pc.point.Loading?
  {
    var r, i := s.pc.run, s.pc.point.next;
    if && i < |s.runs[r].chunks| && i < |c.manifests[r].chunks| && !s.runs[r].chunks[i].IMPORTED?
       && IsTable(s, Staging(r))
       && c.manifests[r].chunks[i].wellFormed && |c.manifests[r].chunks[i].rows| == c.manifests[r].chunks[i].declared
    then
      var rows := c.manifests[r].chunks[i].rows;
      var table := s.catalog[Staging(r)];
      var filled := table.(rows := table.rows + multiset(rows));
      Some(SetChunk(s, r, i, IMPORTED(|rows|), Loading(i + 1)).(catalog := s.catalog[Staging(r) := filled]))
    else None
  }

  // The import of a chunk failed and was rolled back.
  function RejectChunk(s: State): Option<State>
    requires s.pc.At? && s.pc.run in s.runs && s.pc.point.Loading?
  {
    var r, i := s.pc.run, s.pc.point.next;
    if i < |s.runs[r].chunks| && !s.runs[r].chunks[i].IMPORTED?
    then Some(SetChunk(s, r, i, CHUNK_FAILED, Raising)) else None
  }

  function CompleteStaged(c: Config, s: State): Option<State>
    requires s.pc.At? && s.pc.run in s.runs && s.pc.run in c.manifests && s.pc.point.Loading?
  {
    var r := s.pc.run;
    if && s.pc.point.next == |s.runs[r].chunks| && AllImported(s.runs[r].chunks)
       && ImportedTotal(s.runs[r].chunks) == c.manifests[r].rowCount
    then Some(SetStatus(s, r, STAGED, ToVerify)) else None
  }

  function SetVerifying(s: State): Option<State>
    requires s.pc.At? && s.pc.run in s.runs && s.pc.point.ToVerify?
  {
    Some(SetStatus(s, s.pc.run, VERIFYING, Checking))
  }

  // The digest of the staging table, compared with the manifest.
  function CompareDigest(c: Config, s: State): Option<State>
    requires s.pc.At? && s.pc.run in s.runs && s.pc.run in c.manifests && s.pc.point.Checking?
  {
    var r := s.pc.run;
    if !IsTable(s, Staging(r)) then None
    else Some(s.(pc := At(r, Compared(Matches(c, r, s.catalog[Staging(r)].rows)))))
  }

  function RecordVerification(s: State): Option<State>
    requires s.pc.At? && s.pc.run in s.runs && s.pc.point.Compared?
  {
    var r := s.pc.run;
    Some(if s.pc.point.matched then SetStatus(s, r, STAGED, Matched) else SetStatus(s, r, MISMATCH, Returning))
  }

  // Where the version order is examined: after verification, and on recovery of a swap.
  predicate AtOrdering(s: State) {
    && s.pc.At? && s.pc.run in s.runs
    && (|| s.pc.point.Matched?
        || (s.pc.point.Registered? && s.runs[s.pc.run].status == SWAPPING && (Before(s, s.pc.run) || After(s, s.pc.run))))
  }

  function Proceed(c: Config, s: State): Option<State>
    requires AtOrdering(s) && s.pc.run in c.manifests
  {
    var r, latest := s.pc.run, LatestRun(s.versions);
    if MayPromote(c, s, r) then
      Some(s.(pc := At(r, if s.pc.point.Matched? then Ordered(latest)
                          else if Before(s, r) then Prepared(latest) else RecoverAfter(latest))))
    else if Compare(r, c.manifests[r].createdAt, Latest(s.versions)) == OLDER then Some(s.(pc := At(r, Older)))
    else None
  }

  function Supersede(s: State): Option<State>
    requires s.pc.At? && s.pc.run in s.runs && s.pc.point.Older?
  {
    Some(SetStatus(s, s.pc.run, SUPERSEDED, Returning).(superseded := s.superseded + {s.pc.run}))
  }

  function PrepareSwapping(s: State): Option<State>
    requires s.pc.At? && s.pc.run in s.runs && s.pc.point.Ordered?
  {
    var r, existed := s.pc.run, Live in s.catalog;
    if existed && (!IsTable(s, Live) || Backup(r) in s.catalog) then None
    else Some(s.(runs := s.runs[r := s.runs[r].(status := SWAPPING, targetExisted := Some(existed), backup := existed)],
                 pc := At(r, Prepared(s.pc.point.latest))))
  }

  // One atomic RENAME TABLE over one or two pairs of names.
  function Rename(s: State): Option<State>
    requires s.pc.At? && s.pc.run in s.runs && s.pc.point.Prepared?
  {
    var r := s.pc.run;
    if Staging(r) !in s.catalog then None
    else if s.runs[r].backup then
      if Live !in s.catalog || Backup(r) in s.catalog then None
      else Some(Renamed'(s, s.catalog[Backup(r) := s.catalog[Live]][Live := s.catalog[Staging(r)]] - {Staging(r)}))
    else if Live in s.catalog then None
    else Some(Renamed'(s, s.catalog[Live := s.catalog[Staging(r)]] - {Staging(r)}))
  }

  function Renamed'(s: State, catalog: map<Name, Object>): State
    requires s.pc.At? && s.pc.point.Prepared?
  {
    s.(catalog := catalog, swaps := s.swaps[s.pc.run := Swaps(s, s.pc.run) + 1],
      pc := At(s.pc.run, Renamed(s.pc.point.latest)))
  }

  function RecordRecovered(c: Config, s: State): Option<State>
    requires s.pc.At? && s.pc.run in s.runs && s.pc.run in c.manifests && s.pc.point.RecoverAfter?
  {
    var r := s.pc.run;
    if IsTable(s, Live) && Matches(c, r, s.catalog[Live].rows)
    then Some(SetStatus(s, r, STAGED, Restored(s.pc.point.latest))) else None
  }

  function RestoreIntent(s: State): Option<State>
    requires s.pc.At? && s.pc.run in s.runs && s.pc.point.Restored?
  {
    Some(SetStatus(s, s.pc.run, SWAPPING, Renamed(s.pc.point.latest)))
  }

  function NewVersion(c: Config, s: State, r: RunId): Version
    requires r in c.manifests
  {
    var m, previous := c.manifests[r], Latest(s.versions);
    if previous.None? then Version(r, m.createdAt, m.rowCount, None, None, None)
    else Version(r, m.createdAt, m.rowCount, Some(previous.value.run), Some(previous.value.rowCount),
                 Some(m.rowCount - previous.value.rowCount))
  }

  function Finalize(c: Config, s: State): Option<State>
    requires s.pc.At? && s.pc.run in s.runs && s.pc.run in c.manifests && s.pc.point.Renamed?
  {
    var r, previous := s.pc.run, Latest(s.versions);
    if previous.Some? && previous.value.run == r then Some(SetStatus(s, r, VERIFIED, Returning))
    else if LatestRun(s.versions) != s.pc.point.latest then None
    else if previous.Some? && c.manifests[r].createdAt <= previous.value.createdAt then None
    else Some(SetStatus(s, r, VERIFIED, Returning).(versions := s.versions + [NewVersion(c, s, r)]))
  }

  function Release(s: State): Option<State>
    requires s.pc.At?
  {
    if s.pc.point.Returning? ||
       (s.pc.point.Registered? && s.pc.run in s.runs && s.runs[s.pc.run].status in {VERIFIED, MISMATCH, SUPERSEDED})
    then Some(s.(pc := Idle)) else None
  }

  // An exception reached process(): fail_run, then the locks are released.
  function Fail(s: State): State
    requires s.pc.At?
  {
    var r := s.pc.run;
    if r in s.runs && s.runs[r].status != SWAPPING then SetStatus(s, r, FAILED, Returning).(pc := Idle)
    else s.(pc := Idle)
  }

  // --- Cleanup, which needs no lock and may act on an outdated reading of the run ---

  function DropBackup(s: State, r: RunId): Option<State> {
    if r in VersionRuns(s) && Backup(r) in s.catalog then Some(s.(catalog := s.catalog - {Backup(r)})) else None
  }

  function DropStaging(s: State, r: RunId): Option<State> {
    if r in s.superseded && Staging(r) in s.catalog then Some(s.(catalog := s.catalog - {Staging(r)})) else None
  }

  function Unlink(s: State, r: RunId): Option<State> {
    if r in VersionRuns(s) || r in s.superseded then Some(s.(incoming := s.incoming - {r})) else None
  }

  // --- Behaviours ---

  datatype Step =
    | LOCK(run: RunId) | REGISTER | STATEMENT(op: Op) | RELEASE | FAIL | CRASH
    | DROP_BACKUP(run: RunId) | DROP_STAGING(run: RunId) | UNLINK(run: RunId)

  datatype Op =
    | RESUME | OPEN_STAGING | BEGIN_IMPORT | SKIP_CHUNK | IMPORT_CHUNK | REJECT_CHUNK | COMPLETE_STAGED
    | SET_VERIFYING | COMPARE_DIGEST | RECORD_VERIFICATION | PROCEED | SUPERSEDE | PREPARE_SWAPPING | RENAME
    | RECORD_RECOVERED | RESTORE_INTENT | FINALIZE

  // The state after a step, None where the step is not possible.
  function Apply(c: Config, s: State, step: Step): Option<State> {
    match step
    case LOCK(r) => Lock(c, s, r)
    case DROP_BACKUP(r) => DropBackup(s, r)
    case DROP_STAGING(r) => DropStaging(s, r)
    case UNLINK(r) => Unlink(s, r)
    case CRASH => Some(s.(pc := Idle))
    case FAIL => if s.pc.At? then Some(Fail(s)) else None
    case RELEASE => if s.pc.At? then Release(s) else None
    case REGISTER =>
      if s.pc.At? && s.pc.point.Entered? && s.pc.run in c.manifests then Register(c, s) else None
    case STATEMENT(op) =>
      if s.pc.At? && s.pc.run in c.manifests && s.pc.run in s.runs then Execute(c, s, op) else None
  }

  function Execute(c: Config, s: State, op: Op): Option<State>
    requires s.pc.At? && s.pc.run in c.manifests && s.pc.run in s.runs
  {
    var p := s.pc.point;
    match op
    case RESUME => if p.Registered? then Resume(s) else None
    case OPEN_STAGING => if p.Registered? then OpenStaging(s) else None
    case BEGIN_IMPORT => if p.Created? then BeginImport(s) else None
    case SKIP_CHUNK => if p.Loading? then SkipChunk(s) else None
    case IMPORT_CHUNK => if p.Loading? then ImportChunk(c, s) else None
    case REJECT_CHUNK => if p.Loading? then RejectChunk(s) else None
    case COMPLETE_STAGED => if p.Loading? then CompleteStaged(c, s) else None
    case SET_VERIFYING => if p.ToVerify? then SetVerifying(s) else None
    case COMPARE_DIGEST => if p.Checking? then CompareDigest(c, s) else None
    case RECORD_VERIFICATION => if p.Compared? then RecordVerification(s) else None
    case PROCEED => if AtOrdering(s) then Proceed(c, s) else None
    case SUPERSEDE => if p.Older? then Supersede(s) else None
    case PREPARE_SWAPPING => if p.Ordered? then PrepareSwapping(s) else None
    case RENAME => if p.Prepared? then Rename(s) else None
    case RECORD_RECOVERED => if p.RecoverAfter? then RecordRecovered(c, s) else None
    case RESTORE_INTENT => if p.Restored? then RestoreIntent(s) else None
    case FINALIZE => if p.Renamed? then Finalize(c, s) else None
  }

  predicate Initial(c: Config, s: State) {
    && (c.original.Some? && c.original.value.BaseTable? ==> c.original.value.origin.None?)
    && s == State(if c.original.Some? then map[Live := c.original.value] else map[], map[], [], c.manifests.Keys,
                  Idle, {}, map[])
  }

  // A behaviour: states from an initial one, each reached from the one before by a step.
  ghost predicate Behaviour(c: Config, states: seq<State>, steps: seq<Step>) {
    && |states| == |steps| + 1
    && Initial(c, states[0])
    && forall i :: 0 <= i < |steps| ==> Link(c, states, steps, i)
  }

  // Any piece of a behaviour.
  ghost predicate Path(c: Config, states: seq<State>, steps: seq<Step>) {
    |states| == |steps| + 1 && forall i :: 0 <= i < |steps| ==> Link(c, states, steps, i)
  }

  predicate Link(c: Config, states: seq<State>, steps: seq<Step>, i: nat)
    requires i < |steps| < |states|
  {
    Apply(c, states[i], steps[i]) == Some(states[i + 1])
  }
}
