/**
  One run of the source (src/airgap_sync/source/delivery.py): a producer that scans, counts and
  enqueues chunks, a worker that uploads them, and the upload of schema and manifest at the end.

  A step is an action of one thread between two points where the other can act; both threads
  interleave freely, anything that can raise may raise, and the process may stop anywhere.
 */
module Delivery {
  import opened Wrappers

  datatype Artifact = Chunk(index: nat) | Schema | Manifest

  datatype ArtifactStatus = PENDING | UPLOADING | UPLOADED | FAILED

  datatype RunStatus = GENERATING | RUN_UPLOADING | FINALIZING | SNAPSHOT_READY | DELIVERED | RUN_FAILED | DISK_PRESSURE

  datatype Cause = UPLOAD_ERROR | DISK | OTHER

  datatype Message = Upload(index: nat) | Stop

  // The sizes of the chunks the scan closes, and the limit of bytes waiting for upload.
  datatype Config = Config(sizes: seq<nat>, maxPending: nat)

  function SizeOf(c: Config, i: nat): nat {
    if i < |c.sizes| then c.sizes[i] else 0
  }

  datatype Producer =
    | Scanning | Closed | Admitted | Registered | Counted(current: int)
    | Scanned | Draining | Joining | Joined
    | Ready | Finishing | SchemaRegistered | SchemaCalled | SchemaConfirmed | SchemaUploaded
    | Completed | ManifestDue | ManifestRegistered | ManifestCalled | ManifestConfirmed | ManifestUploaded | Delivered
    | Failing(cause: Cause) | Returned

  datatype Worker =
    | Starting | Waiting | Got(index: nat) | Cleared(index: nat) | Calling(index: nat) | UploadFailed(index: nat)
    | Confirmed(index: nat) | Marked(index: nat) | Unlinked(index: nat) | Finished | Dead

  // Artifact rows, the run's status and whether it is the table's last delivered run are durable;
  // confirmed is what the relay holds, calls are the calls of the uploader in order.
  datatype State = State(
    producer: Producer, worker: Worker, queue: seq<Message>, fatal: Option<Cause>, pending: int,
    closed: nat, registered: nat, counted: nat, enqueued: nat, taken: nat, released: set<nat>,
    artifacts: map<Artifact, ArtifactStatus>, files: set<nat>, status: RunStatus, lastDelivered: bool,
    confirmed: set<Artifact>, calls: seq<Artifact>)

  function Initial(): State {
    State(Scanning, Starting, [], None, 0, 0, 0, 0, 0, 0, {}, map[], {}, RUN_UPLOADING, false, {}, [])
  }

  // The first cause stays.
  function SetFatal(s: State, cause: Cause): State {
    if s.fatal.None? then s.(fatal := Some(cause)) else s
  }

  function SetArtifact(s: State, a: Artifact, status: ArtifactStatus): State {
    s.(artifacts := s.artifacts[a := status])
  }

  // --- The producer ---

  datatype ProducerStep =
    | CLOSE_CHUNK | CHECK_FATAL | REGISTER | COUNT | ENQUEUE | FINISH_SCAN | SCAN_FAILS(cause: Cause)
    | PUT_STOP | JOIN | PROCEED | GIVE_UP | SET_FINALIZING | REGISTER_SCHEMA | CALL_SCHEMA | CONFIRM_SCHEMA
    | MARK_SCHEMA | COMPLETE_RUN | SET_FINALIZING_AGAIN | REGISTER_MANIFEST | CALL_MANIFEST | CONFIRM_MANIFEST
    | MARK_MANIFEST | DELIVER_RUN | FINISHING_FAILS(marked: bool) | FAIL_RUN | RETURN

  predicate InScan(p: Producer) {
    p.Scanning? || p.Closed? || p.Admitted? || p.Registered? || p.Counted? || p.Scanned?
  }

  predicate InFinish(p: Producer) {
    || p.Ready? || p.Finishing? || p.SchemaRegistered? || p.SchemaCalled? || p.SchemaConfirmed? || p.SchemaUploaded?
    || p.Completed? || p.ManifestDue? || p.ManifestRegistered? || p.ManifestCalled? || p.ManifestConfirmed?
    || p.ManifestUploaded? || p.Delivered?
  }

  function ScanStep(c: Config, s: State, step: ProducerStep): Option<State> {
    var p := s.producer;
    match step
    case CLOSE_CHUNK =>
      if p.Scanning? && s.closed < |c.sizes|
      then Some(s.(producer := Closed, closed := s.closed + 1, files := s.files + {s.closed})) else None
    case CHECK_FATAL =>
      if p.Closed? && s.fatal.None? then Some(s.(producer := Admitted)) else None
    case REGISTER =>
      if p.Admitted?
      then Some(SetArtifact(s, Chunk(s.registered), PENDING).(producer := Registered, registered := s.registered + 1)) else None
    case COUNT =>
      if p.Registered? then
        var current := s.pending + SizeOf(c, s.counted);
        Some(s.(producer := Counted(current), counted := s.counted + 1, pending := current))
      else None
    case ENQUEUE =>
      if p.Counted? && p.current <= c.maxPending
      then Some(s.(producer := Scanning, queue := s.queue + [Upload(s.enqueued)], enqueued := s.enqueued + 1)) else None
    case FINISH_SCAN =>
      if p.Scanning? && s.closed == |c.sizes| then Some(s.(producer := Scanned)) else None
    case SCAN_FAILS(cause) =>
      if InScan(p) && (p.Counted? && p.current > c.maxPending ==> cause.DISK?)
      then Some(SetFatal(s, cause).(producer := Draining)) else None
    case PUT_STOP =>
      if p.Scanned? || p.Draining? then Some(s.(producer := Joining, queue := s.queue + [Stop])) else None
    case JOIN =>
      if p.Joining? && (s.worker.Finished? || s.worker.Dead?) then Some(s.(producer := Joined)) else None
    case PROCEED =>
      if p.Joined? && s.fatal.None? then Some(s.(producer := Ready)) else None
    case GIVE_UP =>
      if p.Joined? && s.fatal.Some? then Some(s.(producer := Failing(s.fatal.value))) else None
    case _ => None
  }

  function FinishStep(s: State, step: ProducerStep): Option<State> {
    var p := s.producer;
    match step
    case SET_FINALIZING => if p.Ready? then Some(s.(producer := Finishing, status := FINALIZING)) else None
    case REGISTER_SCHEMA => if p.Finishing? then Some(SetArtifact(s, Schema, PENDING).(producer := SchemaRegistered)) else None
    case CALL_SCHEMA =>
      if p.SchemaRegistered?
      then Some(SetArtifact(s, Schema, UPLOADING).(producer := SchemaCalled, calls := s.calls + [Schema])) else None
    case CONFIRM_SCHEMA =>
      if p.SchemaCalled? then Some(s.(producer := SchemaConfirmed, confirmed := s.confirmed + {Schema})) else None
    case MARK_SCHEMA =>
      if p.SchemaConfirmed? then Some(SetArtifact(s, Schema, UPLOADED).(producer := SchemaUploaded)) else None
    case COMPLETE_RUN => if p.SchemaUploaded? then Some(s.(producer := Completed, status := SNAPSHOT_READY)) else None
    case SET_FINALIZING_AGAIN => if p.Completed? then Some(s.(producer := ManifestDue, status := FINALIZING)) else None
    case REGISTER_MANIFEST => if p.ManifestDue? then Some(SetArtifact(s, Manifest, PENDING).(producer := ManifestRegistered)) else None
    case CALL_MANIFEST =>
      if p.ManifestRegistered?
      then Some(SetArtifact(s, Manifest, UPLOADING).(producer := ManifestCalled, calls := s.calls + [Manifest])) else None
    case CONFIRM_MANIFEST =>
      if p.ManifestCalled? then Some(s.(producer := ManifestConfirmed, confirmed := s.confirmed + {Manifest})) else None
    case MARK_MANIFEST =>
      if p.ManifestConfirmed? then Some(SetArtifact(s, Manifest, UPLOADED).(producer := ManifestUploaded)) else None
    case DELIVER_RUN =>
      if p.ManifestUploaded? then Some(s.(producer := Delivered, status := DELIVERED, lastDelivered := true)) else None
    case FINISHING_FAILS(marked) =>
      if p.SchemaCalled? && marked then Some(SetArtifact(s, Schema, FAILED).(producer := Failing(OTHER)))
      else if p.ManifestCalled? && marked then Some(SetArtifact(s, Manifest, FAILED).(producer := Failing(OTHER)))
      else if InFinish(p) then Some(s.(producer := Failing(OTHER))) else None
    case FAIL_RUN =>
      if p.Failing? then Some(s.(producer := Returned, status := if p.cause.DISK? then DISK_PRESSURE else RUN_FAILED)) else None
    case RETURN => if p.Delivered? then Some(s.(producer := Returned)) else None
    case _ => None
  }

  // --- The worker ---

  // DIE: the thread ends without telling the producer, before its loop or in its error handler.
  datatype WorkerStep =
    | START | GET | SKIP | CLEAR | CALL | CONFIRM | UPLOAD_FAILS | MARK_FAILED | MARK | UNLINK | UNLINK_FAILS | RELEASE | RAISES | DIE

  function WorkStep(c: Config, s: State, step: WorkerStep): Option<State> {
    var w := s.worker;
    match step
    case START => if w.Starting? then Some(s.(worker := Waiting)) else None
    case GET =>
      if !w.Waiting? || s.queue == [] then None
      else if s.queue[0].Stop? then Some(s.(worker := Finished, queue := s.queue[1..]))
      else Some(s.(worker := Got(s.queue[0].index), queue := s.queue[1..], taken := s.taken + 1))
    case SKIP => if w.Got? && s.fatal.Some? then Some(s.(worker := Waiting)) else None
    case CLEAR => if w.Got? && s.fatal.None? then Some(s.(worker := Cleared(w.index))) else None
    case CALL =>
      if w.Cleared?
      then Some(SetArtifact(s, Chunk(w.index), UPLOADING).(worker := Calling(w.index), calls := s.calls + [Chunk(w.index)])) else None
    case CONFIRM =>
      if w.Calling? then Some(s.(worker := Confirmed(w.index), confirmed := s.confirmed + {Chunk(w.index)})) else None
    case UPLOAD_FAILS => if w.Calling? then Some(s.(worker := UploadFailed(w.index))) else None
    case MARK_FAILED =>
      if w.UploadFailed? then Some(SetFatal(SetArtifact(s, Chunk(w.index), FAILED), UPLOAD_ERROR).(worker := Waiting)) else None
    case MARK => if w.Confirmed? then Some(SetArtifact(s, Chunk(w.index), UPLOADED).(worker := Marked(w.index))) else None
    case UNLINK => if w.Marked? then Some(s.(worker := Unlinked(w.index), files := s.files - {w.index})) else None
    case UNLINK_FAILS => if w.Marked? then Some(s.(worker := Waiting)) else None
    case RELEASE =>
      if w.Unlinked?
      then Some(s.(worker := Waiting, pending := s.pending - SizeOf(c, w.index), released := s.released + {w.index})) else None
    case RAISES =>
      if w.Calling? || w.Confirmed? || w.Marked? || w.Unlinked?
      then Some(SetFatal(s, OTHER).(worker := Waiting)) else None
    case DIE => if w.Starting? || w.UploadFailed? then Some(s.(worker := Dead)) else None
  }

  datatype Step = PRODUCER(produce: ProducerStep) | WORKER(work: WorkerStep)

  function Next(c: Config, s: State, step: Step): Option<State> {
    match step
    case WORKER(w) => WorkStep(c, s, w)
    case PRODUCER(p) =>
      var scan := ScanStep(c, s, p);
      if scan.Some? then scan else FinishStep(s, p)
  }

  // A run, or its beginning if the process stops: what is durable stays as it is then.
  ghost predicate Run(c: Config, states: seq<State>, steps: seq<Step>) {
    && |states| == |steps| + 1 && states[0] == Initial()
    && forall i :: 0 <= i < |steps| ==> Link(c, states, steps, i)
  }

  predicate Link(c: Config, states: seq<State>, steps: seq<Step>, i: nat)
    requires i < |steps| < |states|
  {
    Next(c, states[i], steps[i]) == Some(states[i + 1])
  }

  // --- The invariant ---

  // The chunk the worker is busy with.
  predicate Busy(w: Worker) {
    w.Got? || w.Cleared? || w.Calling? || w.UploadFailed? || w.Confirmed? || w.Marked? || w.Unlinked?
  }

  function StatusOf(s: State, i: nat): Option<ArtifactStatus> {
    if Chunk(i) in s.artifacts then Some(s.artifacts[Chunk(i)]) else None
  }

  function Waits(from: nat, to: nat): (r: seq<Message>)
    requires from <= to
  {
    seq(to - from, k requires 0 <= k < to - from => Upload(from + k))
  }

  predicate StopSent(p: Producer) {
    p.Joining? || p.Joined? || InFinish(p) || p.Failing? || p.Returned?
  }

  // The counts follow each other, the queue holds what is enqueued and not taken.
  ghost predicate CountsOk(c: Config, s: State) {
    && s.taken <= s.enqueued <= s.counted <= s.registered <= s.closed <= |c.sizes|
    && (s.producer.Scanning? || s.producer.Scanned? ==> s.enqueued == s.closed)
    && (s.producer.Closed? || s.producer.Admitted? ==> s.enqueued == s.registered == s.closed - 1)
    && (s.producer.Registered? ==> s.enqueued == s.counted == s.registered - 1 && s.registered == s.closed)
    && (s.producer.Counted? ==> s.enqueued == s.counted - 1 && s.counted == s.registered == s.closed)
    && (s.producer.Scanned? ==> s.closed == |c.sizes|)
    && s.queue == Waits(s.taken, s.enqueued) + (if StopSent(s.producer) && !s.worker.Finished? then [Stop] else [])
    && (s.worker.Finished? ==> StopSent(s.producer) && s.taken == s.enqueued)
    && (Busy(s.worker) ==> s.taken > 0 && s.worker.index == s.taken - 1)
    && (s.worker.Starting? ==> s.taken == 0)
  }

  ghost predicate PhasesOk(c: Config, s: State) {
    && (s.producer.Joined? || InFinish(s.producer) ==> s.worker.Finished? || s.worker.Dead?)
    && (StopSent(s.producer) && s.fatal.None? ==> s.enqueued == |c.sizes|)
    && (InFinish(s.producer) ==> s.fatal.None?)
    && (s.producer.Draining? ==> s.fatal.Some?)
  }

  // What is recorded of the chunks.
  ghost predicate ChunksOk(c: Config, s: State) {
    && (forall i: nat :: Chunk(i) in s.artifacts <==> i < s.registered)
    && (forall i: nat :: s.taken <= i < s.registered ==> StatusOf(s, i) == Some(PENDING))
    && (forall i: nat :: i < s.taken && !(Busy(s.worker) && i == s.taken - 1) && s.fatal.None? && !s.worker.Dead? ==>
          StatusOf(s, i) == Some(UPLOADED))
    && (s.worker.Marked? || s.worker.Unlinked? ==> StatusOf(s, s.worker.index) == Some(UPLOADED))
    && (s.worker.Got? || s.worker.Cleared? || s.worker.Calling? || s.worker.UploadFailed? || s.worker.Confirmed? ==>
          StatusOf(s, s.worker.index) != Some(UPLOADED))
    && (s.worker.Dead? ==> s.taken == 0 || StatusOf(s, s.taken - 1) != Some(UPLOADED))
    && (forall i: nat :: StatusOf(s, i) == Some(UPLOADED) ==> Chunk(i) in s.confirmed)
    && (s.worker.Confirmed? ==> Chunk(s.worker.index) in s.confirmed)
    && (forall i: nat :: i < s.closed && i !in s.files ==> StatusOf(s, i) == Some(UPLOADED))
    && (forall i :: i in s.files ==> i < s.closed)
  }

  ghost predicate CallsOk(s: State) {
    && (forall k :: 0 <= k < |s.calls| && s.calls[k].Chunk? ==>
          s.calls[k].index < s.taken && (s.worker.Got? || s.worker.Cleared? ==> s.calls[k].index < s.worker.index))
    && (forall j, k :: 0 <= j < k < |s.calls| ==> Precedes(s.calls[j], s.calls[k]))
    && (Schema in s.calls ==> StopSent(s.producer) && !BeforeSchemaCall(s.producer))
    && (Manifest in s.calls ==> StopSent(s.producer) && !BeforeManifestCall(s.producer))
    && (Schema in s.calls || Manifest in s.calls ==> s.worker.Finished? || s.worker.Dead?)
  }

  // The order in which artifacts are uploaded.
  predicate Precedes(a: Artifact, b: Artifact) {
    match b
    case Chunk(i) => a.Chunk? && a.index < i
    case Schema => a.Chunk?
    case Manifest => !a.Manifest?
  }

  predicate BeforeSchemaCall(p: Producer) {
    p.Joining? || p.Joined? || p.Ready? || p.Finishing? || p.SchemaRegistered?
  }

  predicate BeforeManifestCall(p: Producer) {
    || BeforeSchemaCall(p) || p.SchemaCalled? || p.SchemaConfirmed? || p.SchemaUploaded? || p.Completed?
    || p.ManifestDue? || p.ManifestRegistered?
  }

  ghost predicate FinalsOk(c: Config, s: State) {
    && (s.producer.SchemaConfirmed? ==> Schema in s.confirmed)
    && (Schema in s.artifacts && s.artifacts[Schema] == UPLOADED ==> Schema in s.confirmed)
    && (s.producer.SchemaUploaded? || s.producer.Completed? || s.producer.ManifestDue? || s.producer.ManifestRegistered?
        || s.producer.ManifestCalled? || s.producer.ManifestConfirmed? || s.producer.ManifestUploaded? || s.producer.Delivered? ==>
          Schema in s.artifacts && s.artifacts[Schema] == UPLOADED)
    && (Manifest in s.calls ==>
          && Schema in s.artifacts && s.artifacts[Schema] == UPLOADED
          && s.enqueued == |c.sizes| && s.fatal.None? && (s.worker.Finished? || s.worker.Dead?))
    && (s.producer.ManifestCalled? || s.producer.ManifestConfirmed? || s.producer.ManifestUploaded? || s.producer.Delivered? ==>
          Manifest in s.calls)
    && (s.producer.ManifestConfirmed? ==> Manifest in s.confirmed)
    && (s.producer.ManifestUploaded? || s.producer.Delivered? || s.lastDelivered ==>
          Manifest in s.confirmed && Manifest in s.artifacts && s.artifacts[Manifest] == UPLOADED && Manifest in s.calls)
    && (s.status == DELIVERED ==> s.lastDelivered)
    && (s.lastDelivered ==> s.producer.Delivered? || s.producer.Failing? || s.producer.Returned?)
  }

  // --- The byte account ---

  function Total(sizes: seq<nat>, chunks: set<nat>, n: nat): nat
    requires n <= |sizes|
  {
    if n == 0 then 0 else Total(sizes, chunks, n - 1) + (if n - 1 in chunks then sizes[n - 1] else 0)
  }

  function Sum(sizes: seq<nat>, n: nat): nat
    requires n <= |sizes|
  {
    if n == 0 then 0 else Sum(sizes, n - 1) + sizes[n - 1]
  }

  // pending is the size of all counted chunks but the released ones, which are uploaded and gone.
  ghost predicate AccountOk(c: Config, s: State) {
    && s.counted <= |c.sizes|
    && s.pending + Total(c.sizes, s.released, s.counted) == Sum(c.sizes, s.counted)
    && (forall i :: i in s.released ==> i < s.taken && i !in s.files && (Busy(s.worker) ==> i < s.taken - 1))
    && (s.producer.Counted? ==> s.pending <= s.producer.current)
    && (s.enqueued == s.counted ==> s.pending <= c.maxPending)
    && (s.enqueued < s.counted ==> s.pending <= c.maxPending + SizeOf(c, s.counted - 1))
    && (s.worker.Unlinked? ==> s.worker.index !in s.files && s.worker.index !in s.released)
  }

  ghost predicate Inv(c: Config, s: State) {
    && CountsOk(c, s) && PhasesOk(c, s) && ChunksOk(c, s) && CallsOk(s) && FinalsOk(c, s) && AccountOk(c, s)
  }

  // --- Every step keeps it ---

  lemma {:induction false} TotalGrows(sizes: seq<nat>, chunks: set<nat>, i: nat, n: nat)
    requires n <= |sizes| && i < |sizes| && i !in chunks
    ensures Total(sizes, chunks + {i}, n) == Total(sizes, chunks, n) + (if i < n then sizes[i] else 0)
  {
    if n > 0 {
      TotalGrows(sizes, chunks, i, n - 1);
    }
  }

  lemma PutKeepsCounts(c: Config, s: State, step: ProducerStep, s': State)
    requires CountsOk(c, s) && PhasesOk(c, s) && ScanStep(c, s, step) == Some(s')
    requires step.ENQUEUE? || step.PUT_STOP?
    ensures CountsOk(c, s')
  {
  }

  lemma OtherScanKeepsCounts(c: Config, s: State, step: ProducerStep, s': State)
    requires CountsOk(c, s) && PhasesOk(c, s) && ScanStep(c, s, step) == Some(s')
    requires !(step.ENQUEUE? || step.PUT_STOP?)
    ensures CountsOk(c, s')
  {
  }

  lemma ScanKeepsCounts(c: Config, s: State, step: ProducerStep, s': State)
    requires CountsOk(c, s) && PhasesOk(c, s) && ScanStep(c, s, step) == Some(s')
    ensures CountsOk(c, s')
  {
    if step.ENQUEUE? || step.PUT_STOP? {
      PutKeepsCounts(c, s, step, s');
    } else {
      OtherScanKeepsCounts(c, s, step, s');
    }
  }

  lemma ScanKeepsPhases(c: Config, s: State, step: ProducerStep, s': State)
    requires CountsOk(c, s) && PhasesOk(c, s) && ScanStep(c, s, step) == Some(s')
    ensures PhasesOk(c, s')
  {
  }

  lemma ScanKeepsOrder(c: Config, s: State, step: ProducerStep, s': State)
    requires CountsOk(c, s) && PhasesOk(c, s) && ScanStep(c, s, step) == Some(s')
    ensures CountsOk(c, s') && PhasesOk(c, s')
  {
    ScanKeepsCounts(c, s, step, s');
    ScanKeepsPhases(c, s, step, s');
  }

  lemma FinishKeepsOrder(c: Config, s: State, step: ProducerStep, s': State)
    requires CountsOk(c, s) && PhasesOk(c, s) && FinishStep(s, step) == Some(s')
    ensures CountsOk(c, s') && PhasesOk(c, s')
  {
  }

  lemma GetKeepsCounts(c: Config, s: State, s': State)
    requires CountsOk(c, s) && WorkStep(c, s, GET) == Some(s')
    ensures CountsOk(c, s')
  {
  }

  lemma OtherWorkKeepsCounts(c: Config, s: State, step: WorkerStep, s': State)
    requires CountsOk(c, s) && WorkStep(c, s, step) == Some(s') && !step.GET?
    ensures CountsOk(c, s')
  {
  }

  lemma WorkKeepsCounts(c: Config, s: State, step: WorkerStep, s': State)
    requires CountsOk(c, s) && WorkStep(c, s, step) == Some(s')
    ensures CountsOk(c, s')
  {
    if step.GET? {
      GetKeepsCounts(c, s, s');
    } else {
      OtherWorkKeepsCounts(c, s, step, s');
    }
  }

  lemma WorkKeepsPhases(c: Config, s: State, step: WorkerStep, s': State)
    requires CountsOk(c, s) && PhasesOk(c, s) && WorkStep(c, s, step) == Some(s')
    ensures PhasesOk(c, s')
  {
  }

  lemma WorkKeepsOrder(c: Config, s: State, step: WorkerStep, s': State)
    requires CountsOk(c, s) && PhasesOk(c, s) && WorkStep(c, s, step) == Some(s')
    ensures CountsOk(c, s') && PhasesOk(c, s')
  {
    WorkKeepsCounts(c, s, step, s');
    WorkKeepsPhases(c, s, step, s');
  }

  // Most steps change little of what an invariant is about.
  ghost predicate SameChunks(s: State, s': State) {
    && s'.worker == s.worker && s'.taken == s.taken && s'.registered == s.registered && s'.closed == s.closed
    && s'.files == s.files && (s'.fatal.None? ==> s.fatal.None?)
    && (forall i: nat :: StatusOf(s', i) == StatusOf(s, i) && (Chunk(i) in s'.artifacts <==> Chunk(i) in s.artifacts))
    && (forall i: nat :: Chunk(i) in s.confirmed ==> Chunk(i) in s'.confirmed)
  }

  lemma SameChunksOk(c: Config, s: State, s': State)
    requires ChunksOk(c, s) && SameChunks(s, s')
    ensures ChunksOk(c, s')
  {
  }

  lemma ScanLeavesChunks(c: Config, s: State, step: ProducerStep, s': State)
    requires ScanStep(c, s, step) == Some(s') && !step.CLOSE_CHUNK? && !step.REGISTER?
    ensures SameChunks(s, s')
  {
  }

  lemma FinishLeavesChunks(s: State, step: ProducerStep, s': State)
    requires FinishStep(s, step) == Some(s')
    ensures SameChunks(s, s')
  {
  }

  lemma CloseKeepsChunks(c: Config, s: State, s': State)
    requires CountsOk(c, s) && ChunksOk(c, s) && ScanStep(c, s, CLOSE_CHUNK) == Some(s')
    ensures ChunksOk(c, s')
  {
  }

  lemma RegisterKeepsChunks(c: Config, s: State, s': State)
    requires CountsOk(c, s) && ChunksOk(c, s) && ScanStep(c, s, REGISTER) == Some(s')
    ensures ChunksOk(c, s')
  {
  }

  lemma ScanKeepsChunks(c: Config, s: State, step: ProducerStep, s': State)
    requires CountsOk(c, s) && ChunksOk(c, s) && ScanStep(c, s, step) == Some(s')
    ensures ChunksOk(c, s')
  {
    if step.CLOSE_CHUNK? {
      CloseKeepsChunks(c, s, s');
    } else if step.REGISTER? {
      RegisterKeepsChunks(c, s, s');
    } else {
      ScanLeavesChunks(c, s, step, s');
      SameChunksOk(c, s, s');
    }
  }

  lemma MarkKeepsChunks(c: Config, s: State, step: WorkerStep, s': State)
    requires CountsOk(c, s) && ChunksOk(c, s) && WorkStep(c, s, step) == Some(s')
    requires step.CALL? || step.MARK? || step.MARK_FAILED?
    ensures ChunksOk(c, s')
  {
  }

  lemma TakeKeepsChunks(c: Config, s: State, step: WorkerStep, s': State)
    requires CountsOk(c, s) && ChunksOk(c, s) && WorkStep(c, s, step) == Some(s')
    requires step.START? || step.GET? || step.SKIP? || step.CLEAR? || step.DIE?
    ensures ChunksOk(c, s')
  {
  }

  lemma OtherWorkKeepsChunks(c: Config, s: State, step: WorkerStep, s': State)
    requires CountsOk(c, s) && ChunksOk(c, s) && WorkStep(c, s, step) == Some(s')
    requires step.CONFIRM? || step.UPLOAD_FAILS? || step.UNLINK? || step.UNLINK_FAILS? || step.RELEASE? || step.RAISES?
    ensures ChunksOk(c, s')
  {
  }

  lemma WorkKeepsChunks(c: Config, s: State, step: WorkerStep, s': State)
    requires CountsOk(c, s) && ChunksOk(c, s) && WorkStep(c, s, step) == Some(s')
    ensures ChunksOk(c, s')
  {
    if step.CALL? || step.MARK? || step.MARK_FAILED? {
      MarkKeepsChunks(c, s, step, s');
    } else if step.START? || step.GET? || step.SKIP? || step.CLEAR? || step.DIE? {
      TakeKeepsChunks(c, s, step, s');
    } else {
      OtherWorkKeepsChunks(c, s, step, s');
    }
  }

  lemma ScanKeepsCalls(c: Config, s: State, step: ProducerStep, s': State)
    requires CountsOk(c, s) && PhasesOk(c, s) && CallsOk(s) && ScanStep(c, s, step) == Some(s')
    ensures CallsOk(s')
  {
  }

  lemma CallSchemaKeepsCalls(c: Config, s: State, s': State)
    requires PhasesOk(c, s) && CallsOk(s) && FinishStep(s, CALL_SCHEMA) == Some(s')
    ensures CallsOk(s')
  {
  }

  lemma CallManifestKeepsCalls(c: Config, s: State, s': State)
    requires PhasesOk(c, s) && CallsOk(s) && FinishStep(s, CALL_MANIFEST) == Some(s')
    ensures CallsOk(s')
  {
  }

  lemma OtherFinishKeepsCalls(s: State, step: ProducerStep, s': State)
    requires CallsOk(s) && FinishStep(s, step) == Some(s') && !step.CALL_SCHEMA? && !step.CALL_MANIFEST?
    ensures CallsOk(s')
  {
  }

  lemma FinishKeepsCalls(c: Config, s: State, step: ProducerStep, s': State)
    requires PhasesOk(c, s) && CallsOk(s) && FinishStep(s, step) == Some(s')
    ensures CallsOk(s')
  {
    if step.CALL_SCHEMA? {
      CallSchemaKeepsCalls(c, s, s');
    } else if step.CALL_MANIFEST? {
      CallManifestKeepsCalls(c, s, s');
    } else {
      OtherFinishKeepsCalls(s, step, s');
    }
  }

  lemma WorkKeepsCalls(c: Config, s: State, step: WorkerStep, s': State)
    requires CountsOk(c, s) && PhasesOk(c, s) && CallsOk(s) && WorkStep(c, s, step) == Some(s')
    ensures CallsOk(s')
  {
  }

  lemma ScanKeepsFinals(c: Config, s: State, step: ProducerStep, s': State)
    requires CountsOk(c, s) && PhasesOk(c, s) && CallsOk(s) && FinalsOk(c, s) && ScanStep(c, s, step) == Some(s')
    ensures FinalsOk(c, s')
  {
  }

  lemma FinishKeepsFinals(c: Config, s: State, step: ProducerStep, s': State)
    requires CountsOk(c, s) && PhasesOk(c, s) && CallsOk(s) && FinalsOk(c, s) && FinishStep(s, step) == Some(s')
    ensures FinalsOk(c, s')
  {
  }

  lemma WorkKeepsFinals(c: Config, s: State, step: WorkerStep, s': State)
    requires CountsOk(c, s) && PhasesOk(c, s) && CallsOk(s) && FinalsOk(c, s) && WorkStep(c, s, step) == Some(s')
    ensures FinalsOk(c, s')
  {
  }

  ghost predicate SameAccount(s: State, s': State) {
    && s'.worker == s.worker && s'.pending == s.pending && s'.counted == s.counted && s'.enqueued == s.enqueued
    && s'.taken == s.taken && s'.released == s.released
    && s'.files <= s.files + {s.closed} && s.taken <= s.closed && !s'.producer.Counted?
  }

  lemma SameAccountOk(c: Config, s: State, s': State)
    requires CountsOk(c, s) && AccountOk(c, s) && SameAccount(s, s')
    ensures AccountOk(c, s')
  {
  }

  lemma FinishKeepsAccount(c: Config, s: State, step: ProducerStep, s': State)
    requires CountsOk(c, s) && AccountOk(c, s) && FinishStep(s, step) == Some(s')
    ensures AccountOk(c, s')
  {
    FinishLeavesAccount(c, s, step, s');
    SameAccountOk(c, s, s');
  }

  lemma FinishLeavesAccount(c: Config, s: State, step: ProducerStep, s': State)
    requires CountsOk(c, s) && FinishStep(s, step) == Some(s')
    ensures SameAccount(s, s')
  {
  }

  lemma ScanLeavesAccount(c: Config, s: State, step: ProducerStep, s': State)
    requires CountsOk(c, s) && ScanStep(c, s, step) == Some(s') && !step.COUNT? && !step.ENQUEUE?
    ensures SameAccount(s, s')
  {
  }

  lemma CountKeepsAccount(c: Config, s: State, step: ProducerStep, s': State)
    requires CountsOk(c, s) && AccountOk(c, s) && ScanStep(c, s, step) == Some(s') && (step.COUNT? || step.ENQUEUE?)
    ensures AccountOk(c, s')
  {
  }

  lemma ScanKeepsAccount(c: Config, s: State, step: ProducerStep, s': State)
    requires CountsOk(c, s) && AccountOk(c, s) && ScanStep(c, s, step) == Some(s')
    ensures AccountOk(c, s')
  {
    if step.COUNT? || step.ENQUEUE? {
      CountKeepsAccount(c, s, step, s');
    } else {
      ScanLeavesAccount(c, s, step, s');
      SameAccountOk(c, s, s');
    }
  }

  lemma ReleaseKeepsAccount(c: Config, s: State, s': State)
    requires CountsOk(c, s) && AccountOk(c, s) && WorkStep(c, s, RELEASE) == Some(s')
    ensures AccountOk(c, s')
  {
    TotalGrows(c.sizes, s.released, s.worker.index, s.counted);
  }

  lemma OtherWorkKeepsAccount(c: Config, s: State, step: WorkerStep, s': State)
    requires CountsOk(c, s) && AccountOk(c, s) && WorkStep(c, s, step) == Some(s') && !step.RELEASE?
    ensures AccountOk(c, s')
  {
  }

  lemma WorkKeepsAccount(c: Config, s: State, step: WorkerStep, s': State)
    requires CountsOk(c, s) && AccountOk(c, s) && WorkStep(c, s, step) == Some(s')
    ensures AccountOk(c, s')
  {
    if step.RELEASE? {
      ReleaseKeepsAccount(c, s, s');
    } else {
      OtherWorkKeepsAccount(c, s, step, s');
    }
  }

  lemma StepInv(c: Config, s: State, step: Step, s': State)
    requires Inv(c, s) && Next(c, s, step) == Some(s')
    ensures Inv(c, s')
  {
    if step.WORKER? {
      WorkKeepsOrder(c, s, step.work, s');
      WorkKeepsChunks(c, s, step.work, s');
      WorkKeepsCalls(c, s, step.work, s');
      WorkKeepsFinals(c, s, step.work, s');
      WorkKeepsAccount(c, s, step.work, s');
    } else if ScanStep(c, s, step.produce).Some? {
      ScanKeepsOrder(c, s, step.produce, s');
      ScanKeepsChunks(c, s, step.produce, s');
      ScanKeepsCalls(c, s, step.produce, s');
      ScanKeepsFinals(c, s, step.produce, s');
      ScanKeepsAccount(c, s, step.produce, s');
    } else {
      FinishKeepsOrder(c, s, step.produce, s');
      FinishLeavesChunks(s, step.produce, s');
      SameChunksOk(c, s, s');
      FinishKeepsCalls(c, s, step.produce, s');
      FinishKeepsFinals(c, s, step.produce, s');
      FinishKeepsAccount(c, s, step.produce, s');
    }
  }

  lemma {:induction false} Reachable(c: Config, states: seq<State>, steps: seq<Step>, k: nat)
    requires Run(c, states, steps) && k < |states|
    ensures Inv(c, states[k])
  {
    if k > 0 {
      Reachable(c, states, steps, k - 1);
      LinkInv(c, states, steps, k - 1);
    }
  }

  lemma LinkInv(c: Config, states: seq<State>, steps: seq<Step>, i: nat)
    requires Run(c, states, steps) && i < |steps| && Inv(c, states[i])
    ensures Inv(c, states[i + 1])
  {
    assert Link(c, states, steps, i);
    StepInv(c, states[i], steps[i], states[i + 1]);
  }

  // --- What holds in every interleaving ---

  predicate AllUploaded(c: Config, s: State) {
    forall i :: 0 <= i < |c.sizes| ==> StatusOf(s, i) == Some(UPLOADED)
  }

  // When the upload of the manifest starts, the schema is uploaded; and so are all chunks, exactly
  // if the worker did not die outside its handlers (or there is no chunk).
  lemma ManifestComesLast(c: Config, states: seq<State>, steps: seq<Step>, k: nat)
    requires Run(c, states, steps) && k < |states| && Manifest in states[k].calls
    ensures var s := states[k];
            && Schema in s.artifacts && s.artifacts[Schema] == UPLOADED
            && (AllUploaded(c, s) <==> !s.worker.Dead? || c.sizes == [])
  {
    Reachable(c, states, steps, k);
    var s := states[k];
    if s.worker.Dead? && c.sizes != [] {
      var i := if s.taken == 0 then 0 else s.taken - 1;
      assert StatusOf(s, i) != Some(UPLOADED);
    }
  }

  lemma Extend(c: Config, states: seq<State>, steps: seq<Step>, step: Step) returns (states': seq<State>, steps': seq<Step>)
    requires Run(c, states, steps) && Next(c, states[|steps|], step).Some?
    ensures Run(c, states', steps') && Next(c, states[|steps|], step) == Some(states'[|steps'|])
  {
    states', steps' := states + [Next(c, states[|steps|], step).value], steps + [step];
    forall i | 0 <= i < |steps'|
      ensures Link(c, states', steps', i)
    {
      assert i < |steps| ==> Link(c, states, steps, i);
    }
  }

  // The producer's part of a run without errors, after the scan of one chunk.
  lemma ScanOne(c: Config) returns (states: seq<State>, steps: seq<Step>)
    requires |c.sizes| == 1 && c.sizes[0] <= c.maxPending
    ensures Run(c, states, steps)
    ensures states[|steps|] == Initial().(
      producer := Joined, worker := Dead, queue := [Upload(0), Stop], pending := c.sizes[0],
      closed := 1, registered := 1, counted := 1, enqueued := 1, artifacts := map[Chunk(0) := PENDING], files := {0})
  {
    states, steps := [Initial()], [];
    states, steps := Extend(c, states, steps, WORKER(DIE));
    states, steps := Extend(c, states, steps, PRODUCER(CLOSE_CHUNK));
    states, steps := Extend(c, states, steps, PRODUCER(CHECK_FATAL));
    states, steps := Extend(c, states, steps, PRODUCER(REGISTER));
    states, steps := Extend(c, states, steps, PRODUCER(COUNT));
    states, steps := Extend(c, states, steps, PRODUCER(ENQUEUE));
    states, steps := Extend(c, states, steps, PRODUCER(FINISH_SCAN));
    states, steps := Extend(c, states, steps, PRODUCER(PUT_STOP));
    states, steps := Extend(c, states, steps, PRODUCER(JOIN));
  }

  lemma Finish(c: Config, before: seq<State>, done: seq<Step>, step: ProducerStep) returns (states: seq<State>, steps: seq<Step>)
    requires Run(c, before, done) && FinishStep(before[|done|], step).Some? && ScanStep(c, before[|done|], step).None?
    ensures Run(c, states, steps) && FinishStep(before[|done|], step) == Some(states[|steps|])
    ensures forall i: nat :: StatusOf(states[|steps|], i) == StatusOf(before[|done|], i)
  {
    states, steps := Extend(c, before, done, PRODUCER(step));
    FinishLeavesChunks(before[|done|], step, states[|steps|]);
  }

  lemma UploadSchema(c: Config, before: seq<State>, done: seq<Step>) returns (states: seq<State>, steps: seq<Step>)
    requires Run(c, before, done) && before[|done|].producer.Ready?
    ensures Run(c, states, steps) && states[|steps|].producer.SchemaUploaded?
    ensures forall i: nat :: StatusOf(states[|steps|], i) == StatusOf(before[|done|], i)
  {
    states, steps := Finish(c, before, done, SET_FINALIZING);
    states, steps := Finish(c, states, steps, REGISTER_SCHEMA);
    states, steps := Finish(c, states, steps, CALL_SCHEMA);
    states, steps := Finish(c, states, steps, CONFIRM_SCHEMA);
    states, steps := Finish(c, states, steps, MARK_SCHEMA);
  }

  lemma PrepareManifest(c: Config, before: seq<State>, done: seq<Step>) returns (states: seq<State>, steps: seq<Step>)
    requires Run(c, before, done) && before[|done|].producer.SchemaUploaded?
    ensures Run(c, states, steps) && states[|steps|].producer.ManifestRegistered?
    ensures forall i: nat :: StatusOf(states[|steps|], i) == StatusOf(before[|done|], i)
  {
    states, steps := Finish(c, before, done, COMPLETE_RUN);
    states, steps := Finish(c, states, steps, SET_FINALIZING_AGAIN);
    states, steps := Finish(c, states, steps, REGISTER_MANIFEST);
  }

  lemma UploadManifest(c: Config, before: seq<State>, done: seq<Step>) returns (states: seq<State>, steps: seq<Step>)
    requires Run(c, before, done) && before[|done|].producer.ManifestRegistered?
    ensures Run(c, states, steps) && states[|steps|].lastDelivered
    ensures forall i: nat :: StatusOf(states[|steps|], i) == StatusOf(before[|done|], i)
  {
    states, steps := Finish(c, before, done, CALL_MANIFEST);
    states, steps := Finish(c, states, steps, CONFIRM_MANIFEST);
    states, steps := Finish(c, states, steps, MARK_MANIFEST);
    states, steps := Finish(c, states, steps, DELIVER_RUN);
  }

  // A worker that dies outside its handlers is not noticed: the run is delivered without its chunk.
  lemma DeadWorkerIsNotNoticed()
    ensures exists c: Config, states: seq<State>, steps: seq<Step> ::
              Run(c, states, steps) && states[|steps|].lastDelivered && !AllUploaded(c, states[|steps|])
  {
    var c := Config([5], 100);
    var states, steps := ScanOne(c);
    assert StatusOf(states[|steps|], 0) == Some(PENDING);
    states, steps := Extend(c, states, steps, PRODUCER(PROCEED));
    states, steps := UploadSchema(c, states, steps);
    states, steps := PrepareManifest(c, states, steps);
    states, steps := UploadManifest(c, states, steps);
    assert StatusOf(states[|steps|], 0) == Some(PENDING);
    assert !AllUploaded(c, states[|steps|]);
  }

  // A table's last delivered run has a confirmed manifest, and everything else confirmed as well
  // unless the worker died.
  lemma DeliveredIsConfirmed(c: Config, states: seq<State>, steps: seq<Step>, k: nat)
    requires Run(c, states, steps) && k < |states| && states[k].lastDelivered
    ensures var s := states[k];
            && Manifest in s.confirmed && Schema in s.confirmed && Manifest in s.artifacts && s.artifacts[Manifest] == UPLOADED
            && (!s.worker.Dead? ==> forall i :: 0 <= i < |c.sizes| ==> Chunk(i) in s.confirmed)
  {
    Reachable(c, states, steps, k);
    ManifestComesLast(c, states, steps, k);
  }

  // Every artifact is uploaded by at most one call, after it was registered: the chunks in their
  // sequence, then the schema, then the manifest.
  lemma UploadsInOrder(c: Config, states: seq<State>, steps: seq<Step>, k: nat)
    requires Run(c, states, steps) && k < |states|
    ensures var calls := states[k].calls;
            && (forall i, j :: 0 <= i < j < |calls| ==> calls[i] != calls[j] && Precedes(calls[i], calls[j]))
            && (forall i :: 0 <= i < |calls| && calls[i].Chunk? ==> calls[i] in states[k].artifacts)
  {
    Reachable(c, states, steps, k);
  }

  // A chunk file is removed only after the relay confirmed it and this was recorded.
  lemma NoChunkIsLost(c: Config, states: seq<State>, steps: seq<Step>, k: nat, i: nat)
    requires Run(c, states, steps) && k < |states| && i < states[k].closed
    ensures i in states[k].files || (Chunk(i) in states[k].confirmed && StatusOf(states[k], i) == Some(UPLOADED))
  {
    Reachable(c, states, steps, k);
  }

  // --- Where the counted bytes are ---

  // The one step after which the size of a removed file is never subtracted: what follows the
  // removal raises before the account is brought up to date.
  predicate Leaks(s: State, step: Step) {
    step == WORKER(RAISES) && s.worker.Unlinked?
  }

  function LeakOf(s: State, step: Step): set<nat> {
    if Leaks(s, step) then {s.worker.index} else {}
  }

  function Leaked(states: seq<State>, steps: seq<Step>, k: nat): set<nat>
    requires k <= |steps| < |states|
  {
    if k == 0 then {}
    else Leaked(states, steps, k - 1) + LeakOf(states[k - 1], steps[k - 1])
  }

  function InRelease(s: State): set<nat> {
    if s.worker.Unlinked? then {s.worker.index} else {}
  }

  // A chunk is on disk, released, leaked or about to be released.
  ghost predicate Placed(s: State, leaked: set<nat>) {
    && (forall i: nat :: i < s.closed ==>
          (i !in s.files <==> i in s.released || i in leaked || i in InRelease(s)))
    && (forall i :: i in leaked ==> i < s.taken && i !in s.released && i !in InRelease(s))
    && (forall i :: i in InRelease(s) ==> i < s.taken && i !in s.released)
    && (forall i :: i in s.files ==> i < s.closed)
  }

  lemma CloseKeepsPlaces(c: Config, s: State, s': State, leaked: set<nat>)
    requires CountsOk(c, s) && AccountOk(c, s) && Placed(s, leaked) && ScanStep(c, s, CLOSE_CHUNK) == Some(s')
    ensures Placed(s', leaked)
  {
    assert InRelease(s') == InRelease(s);
  }

  lemma OtherScanKeepsPlaces(c: Config, s: State, step: ProducerStep, s': State, leaked: set<nat>)
    requires Placed(s, leaked) && ScanStep(c, s, step) == Some(s') && !step.CLOSE_CHUNK?
    ensures Placed(s', leaked)
  {
    assert InRelease(s') == InRelease(s);
  }

  lemma ScanKeepsPlaces(c: Config, s: State, step: ProducerStep, s': State, leaked: set<nat>)
    requires CountsOk(c, s) && AccountOk(c, s) && Placed(s, leaked) && ScanStep(c, s, step) == Some(s')
    ensures Placed(s', leaked)
  {
    if step.CLOSE_CHUNK? {
      CloseKeepsPlaces(c, s, s', leaked);
    } else {
      OtherScanKeepsPlaces(c, s, step, s', leaked);
    }
  }

  lemma FinishKeepsPlaces(s: State, step: ProducerStep, s': State, leaked: set<nat>)
    requires Placed(s, leaked) && FinishStep(s, step) == Some(s')
    ensures Placed(s', leaked)
  {
    assert InRelease(s') == InRelease(s);
  }

  lemma WorkKeepsPlaces(c: Config, s: State, step: WorkerStep, s': State, leaked: set<nat>)
    requires CountsOk(c, s) && AccountOk(c, s) && Placed(s, leaked) && WorkStep(c, s, step) == Some(s')
    requires s.worker.Marked? ==> s.worker.index in s.files
    ensures Placed(s', leaked + LeakOf(s, WORKER(step)))
  {
  }

  // While the worker is at a chunk, its file is there.
  ghost predicate FileThere(s: State, leaked: set<nat>) {
    Busy(s.worker) && !s.worker.Unlinked? ==> s.worker.index in s.files && s.worker.index !in leaked
  }

  lemma ScanKeepsFile(c: Config, s: State, step: ProducerStep, s': State)
    requires ScanStep(c, s, step) == Some(s')
    ensures s'.worker == s.worker && s.files <= s'.files
  {
  }

  lemma FinishKeepsFile(s: State, step: ProducerStep, s': State)
    requires FinishStep(s, step) == Some(s')
    ensures s'.worker == s.worker && s'.files == s.files
  {
  }

  lemma WorkKeepsFile(c: Config, s: State, step: WorkerStep, s': State, leaked: set<nat>)
    requires CountsOk(c, s) && AccountOk(c, s) && Placed(s, leaked) && FileThere(s, leaked) && WorkStep(c, s, step) == Some(s')
    ensures FileThere(s', leaked + LeakOf(s, WORKER(step)))
  {
  }

  ghost predicate PlacesOk(s: State, leaked: set<nat>) {
    Placed(s, leaked) && FileThere(s, leaked)
  }

  lemma StepKeepsPlaces(c: Config, s: State, step: Step, s': State, leaked: set<nat>)
    requires CountsOk(c, s) && AccountOk(c, s) && PlacesOk(s, leaked) && Next(c, s, step) == Some(s')
    ensures PlacesOk(s', leaked + LeakOf(s, step))
  {
    if step.WORKER? {
      WorkKeepsPlaces(c, s, step.work, s', leaked);
      WorkKeepsFile(c, s, step.work, s', leaked);
    } else if ScanStep(c, s, step.produce).Some? {
      ScanKeepsPlaces(c, s, step.produce, s', leaked);
      ScanKeepsFile(c, s, step.produce, s');
    } else {
      FinishKeepsPlaces(s, step.produce, s', leaked);
      FinishKeepsFile(s, step.produce, s');
    }
  }

  lemma {:induction false} PlacesKept(c: Config, states: seq<State>, steps: seq<Step>, k: nat)
    requires Run(c, states, steps) && k <= |steps|
    ensures PlacesOk(states[k], Leaked(states, steps, k))
  {
    if k > 0 {
      PlacesKept(c, states, steps, k - 1);
      LinkKeepsPlaces(c, states, steps, k - 1, Leaked(states, steps, k - 1));
    }
  }

  lemma LinkKeepsPlaces(c: Config, states: seq<State>, steps: seq<Step>, i: nat, leaked: set<nat>)
    requires Run(c, states, steps) && i < |steps| && PlacesOk(states[i], leaked)
    ensures PlacesOk(states[i + 1], leaked + LeakOf(states[i], steps[i]))
  {
    Reachable(c, states, steps, i);
    assert Link(c, states, steps, i);
    StepKeepsPlaces(c, states[i], steps[i], states[i + 1], leaked);
  }

  lemma {:induction false} TotalSplits(sizes: seq<nat>, a: set<nat>, b: set<nat>, all: set<nat>, n: nat)
    requires n <= |sizes| && forall i :: 0 <= i < n ==> !(i in a && i in b) && (i in all <==> i in a || i in b)
    ensures Total(sizes, all, n) == Total(sizes, a, n) + Total(sizes, b, n)
  {
    if n > 0 {
      TotalSplits(sizes, a, b, all, n - 1);
    }
  }

  lemma {:induction false} TotalOfAll(sizes: seq<nat>, all: set<nat>, n: nat)
    requires n <= |sizes| && forall i :: 0 <= i < n ==> i in all
    ensures Total(sizes, all, n) == Sum(sizes, n)
  {
    if n > 0 {
      TotalOfAll(sizes, all, n - 1);
    }
  }

  lemma {:induction false} TotalIsZero(sizes: seq<nat>, chunks: set<nat>, n: nat)
    requires n <= |sizes|
    ensures Total(sizes, chunks, n) == 0 <==> forall i :: 0 <= i < n && i in chunks ==> sizes[i] == 0
  {
    if n > 0 {
      TotalIsZero(sizes, chunks, n - 1);
    }
  }

  lemma AccountSplits(c: Config, s: State, leaked: set<nat>)
    requires CountsOk(c, s) && AccountOk(c, s) && Placed(s, leaked)
    ensures s.pending == Total(c.sizes, s.files, s.counted) + Total(c.sizes, leaked + InRelease(s), s.counted)
  {
    var gone := leaked + InRelease(s);
    var all := s.released + s.files + gone;
    TotalSplits(c.sizes, s.files, gone, s.files + gone, s.counted);
    TotalSplits(c.sizes, s.released, s.files + gone, all, s.counted);
    TotalOfAll(c.sizes, all, s.counted);
  }

  // pending_bytes is the size of the counted chunks on disk, and of those whose removal was not
  // followed by the subtraction, or not yet. It exceeds the limit by no more than the one chunk
  // whose admission is refused.
  lemma PendingBytesAccount(c: Config, states: seq<State>, steps: seq<Step>, k: nat)
    requires Run(c, states, steps) && k < |states|
    ensures var s := states[k];
            && s.counted <= |c.sizes|
            && 0 <= Total(c.sizes, s.files, s.counted) <= s.pending
            && s.pending == Total(c.sizes, s.files, s.counted) + Total(c.sizes, Leaked(states, steps, k) + InRelease(s), s.counted)
            && s.pending <= c.maxPending + (if s.enqueued >= s.counted then 0 else SizeOf(c, s.counted - 1))
  {
    Reachable(c, states, steps, k);
    PlacesKept(c, states, steps, k);
    AccountSplits(c, states[k], Leaked(states, steps, k));
    TotalIsZero(c.sizes, Leaked(states, steps, k), states[k].counted);
  }

  predicate LeaksBytes(c: Config, s: State, step: Step) {
    Leaks(s, step) && SizeOf(c, s.worker.index) > 0
  }

  lemma {:induction false} LeakedBytes(c: Config, states: seq<State>, steps: seq<Step>, k: nat)
    requires Run(c, states, steps) && k <= |steps|
    ensures (exists i :: i in Leaked(states, steps, k) && SizeOf(c, i) > 0) <==>
              (exists j :: 0 <= j < k && LeaksBytes(c, states[j], steps[j]))
  {
    if k > 0 {
      LeakedBytes(c, states, steps, k - 1);
      if LeaksBytes(c, states[k - 1], steps[k - 1]) {
        assert states[k - 1].worker.index in Leaked(states, steps, k);
      }
    }
  }

  // The account is exact, outside the moment between removal and subtraction, exactly in the runs
  // in which nothing raised in that moment for a chunk that is not empty: no other error breaks it.
  lemma ExactUnlessReleaseRaises(c: Config, states: seq<State>, steps: seq<Step>, k: nat)
    requires Run(c, states, steps) && k < |states| && !states[k].worker.Unlinked?
    ensures states[k].counted <= |c.sizes|
    ensures states[k].pending == Total(c.sizes, states[k].files, states[k].counted) <==>
              forall j :: 0 <= j < k ==> !LeaksBytes(c, states[j], steps[j])
  {
    var leaked := Leaked(states, steps, k);
    Reachable(c, states, steps, k);
    PlacesKept(c, states, steps, k);
    AccountSplits(c, states[k], leaked);
    LeakedBytes(c, states, steps, k);
    assert leaked + InRelease(states[k]) == leaked;
    TotalIsZero(c.sizes, leaked, states[k].counted);
    if i :| i in leaked && SizeOf(c, i) > 0 {
      assert 0 <= i < states[k].counted;
    }
  }

  // The scan of the first chunk, and its upload.
  lemma FirstChunkIsRemoved(c: Config) returns (states: seq<State>, steps: seq<Step>)
    requires c.sizes != [] && c.sizes[0] <= c.maxPending
    ensures Run(c, states, steps)
    ensures var s := states[|steps|]; s.worker == Unlinked(0) && s.counted == 1 && s.pending == c.sizes[0] && s.files == {}
  {
    states, steps := [Initial()], [];
    states, steps := Extend(c, states, steps, PRODUCER(CLOSE_CHUNK));
    states, steps := Extend(c, states, steps, PRODUCER(CHECK_FATAL));
    states, steps := Extend(c, states, steps, PRODUCER(REGISTER));
    states, steps := Extend(c, states, steps, PRODUCER(COUNT));
    states, steps := Extend(c, states, steps, PRODUCER(ENQUEUE));
    states, steps := Extend(c, states, steps, WORKER(START));
    states, steps := Extend(c, states, steps, WORKER(GET));
    states, steps := Extend(c, states, steps, WORKER(CLEAR));
    states, steps := Extend(c, states, steps, WORKER(CALL));
    states, steps := Extend(c, states, steps, WORKER(CONFIRM));
    states, steps := Extend(c, states, steps, WORKER(MARK));
    states, steps := Extend(c, states, steps, WORKER(UNLINK));
  }

  // And in every configuration that admits a first chunk, this happens in some run: its file is
  // gone and its bytes are still counted as waiting.
  lemma AccountCanLeak(c: Config) returns (states: seq<State>, steps: seq<Step>)
    requires c.sizes != [] && 0 < c.sizes[0] <= c.maxPending
    ensures Run(c, states, steps)
    ensures var s := states[|steps|];
            s.worker.Waiting? && s.counted == 1 && Total(c.sizes, s.files, 1) == 0 && s.pending == c.sizes[0]
  {
    states, steps := FirstChunkIsRemoved(c);
    states, steps := Extend(c, states, steps, WORKER(RAISES));
    TotalIsZero(c.sizes, {}, 1);
  }

  // --- Every run ends ---

  // How many steps a producer is from returning, not counting chunks that are still to be closed.
  function Rank(p: Producer): nat {
    match p
    case Closed => 34
    case Admitted => 33
    case Registered => 32
    case Counted(_) => 31
    case Scanning => 30
    case Scanned => 29
    case Draining => 28
    case Joining => 27
    case Joined => 26
    case Ready => 25
    case Finishing => 24
    case SchemaRegistered => 23
    case SchemaCalled => 22
    case SchemaConfirmed => 21
    case SchemaUploaded => 20
    case Completed => 19
    case ManifestDue => 18
    case ManifestRegistered => 17
    case ManifestCalled => 16
    case ManifestConfirmed => 15
    case ManifestUploaded => 14
    case Delivered => 13
    case Failing(_) => 1
    case Returned => 0
  }

  function ProducerLeft(c: Config, s: State): nat
    requires s.closed <= |c.sizes|
  {
    Rank(s.producer) + 5 * (|c.sizes| - s.closed)
  }

  function WorkerLeft(c: Config, s: State): nat
    requires s.taken <= |c.sizes|
  {
    var n := 8 * (|c.sizes| - s.taken);
    match s.worker
    case Got(_) => n + 9
    case Cleared(_) => n + 8
    case Calling(_) => n + 7
    case UploadFailed(_) => n + 6
    case Confirmed(_) => n + 6
    case Marked(_) => n + 5
    case Unlinked(_) => n + 4
    case Starting => n + 3
    case Waiting => n + 2
    case Finished => 0
    case Dead => 0
  }

  lemma ScanTakesTime(c: Config, s: State, step: ProducerStep, s': State)
    requires ScanStep(c, s, step) == Some(s')
    ensures if step.CLOSE_CHUNK? then Rank(s'.producer) < Rank(s.producer) + 5 && s'.closed == s.closed + 1
            else Rank(s'.producer) < Rank(s.producer) && s'.closed == s.closed
    ensures s'.worker == s.worker && s'.taken == s.taken
  {
  }

  lemma FinishTakesTime(s: State, step: ProducerStep, s': State)
    requires FinishStep(s, step) == Some(s')
    ensures Rank(s'.producer) < Rank(s.producer)
    ensures s'.closed == s.closed && s'.worker == s.worker && s'.taken == s.taken
  {
  }

  lemma WorkTakesTime(c: Config, s: State, step: WorkerStep, s': State)
    requires CountsOk(c, s) && CountsOk(c, s') && WorkStep(c, s, step) == Some(s')
    ensures WorkerLeft(c, s') < WorkerLeft(c, s) && ProducerLeft(c, s') == ProducerLeft(c, s)
  {
  }

  lemma StepTakesTime(c: Config, s: State, step: Step, s': State)
    requires CountsOk(c, s) && CountsOk(c, s') && Next(c, s, step) == Some(s')
    ensures ProducerLeft(c, s') + WorkerLeft(c, s') < ProducerLeft(c, s) + WorkerLeft(c, s)
  {
    if step.WORKER? {
      WorkTakesTime(c, s, step.work, s');
    } else if ScanStep(c, s, step.produce).Some? {
      ScanTakesTime(c, s, step.produce, s');
    } else {
      FinishTakesTime(s, step.produce, s');
    }
  }

  // A step that is possible as long as the producer has not returned.
  function SomeStep(s: State): Step {
    match s.producer
    case Scanning => PRODUCER(SCAN_FAILS(OTHER))
    case Closed | Admitted | Registered | Scanned => PRODUCER(SCAN_FAILS(OTHER))
    case Counted(_) => PRODUCER(SCAN_FAILS(DISK))
    case Draining => PRODUCER(PUT_STOP)
    case Joining =>
      if s.worker.Finished? || s.worker.Dead? then PRODUCER(JOIN)
      else WORKER(match s.worker
                  case Starting => START
                  case Waiting => GET
                  case Got(_) => if s.fatal.Some? then SKIP else CLEAR
                  case Cleared(_) => CALL
                  case UploadFailed(_) => MARK_FAILED
                  case _ => RAISES)
    case Joined => PRODUCER(if s.fatal.Some? then GIVE_UP else PROCEED)
    case Failing(_) => PRODUCER(FAIL_RUN)
    case Delivered => PRODUCER(RETURN)
    case _ => PRODUCER(FINISHING_FAILS(true))
  }

  lemma NeverStuck(c: Config, s: State)
    requires Inv(c, s) && !s.producer.Returned?
    ensures Next(c, s, SomeStep(s)).Some?
  {
  }

  ghost predicate Within(c: Config, s: State, k: nat) {
    CountsOk(c, s) && k + ProducerLeft(c, s) + WorkerLeft(c, s) <= 13 * |c.sizes| + 33
  }

  lemma {:induction false} StepsLeft(c: Config, states: seq<State>, steps: seq<Step>, k: nat)
    requires Run(c, states, steps) && k < |states|
    ensures Within(c, states[k], k)
  {
    if k > 0 {
      StepsLeft(c, states, steps, k - 1);
      LinkTakesTime(c, states, steps, k - 1);
    }
  }

  lemma LinkTakesTime(c: Config, states: seq<State>, steps: seq<Step>, i: nat)
    requires Run(c, states, steps) && i < |steps| && Within(c, states[i], i)
    ensures Within(c, states[i + 1], i + 1)
  {
    Reachable(c, states, steps, i + 1);
    assert Link(c, states, steps, i);
    StepTakesTime(c, states[i], steps[i], states[i + 1]);
  }

  // No interleaving blocks or goes on forever: a run that cannot go on has returned, and its steps
  // are bounded by the number of chunks.
  lemma EveryRunEnds(c: Config, states: seq<State>, steps: seq<Step>)
    requires Run(c, states, steps)
    ensures |steps| <= 13 * |c.sizes| + 33
    ensures (forall step :: Next(c, states[|steps|], step).None?) ==> states[|steps|].producer.Returned?
  {
    StepsLeft(c, states, steps, |steps|);
    Reachable(c, states, steps, |steps|);
    if !states[|steps|].producer.Returned? {
      NeverStuck(c, states[|steps|]);
    }
  }
}
