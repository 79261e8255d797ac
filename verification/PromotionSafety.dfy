/** What every behaviour of the promotion protocol keeps. */
module PromotionSafety {
  import opened Wrappers
  import opened Digest
  import opened Promotion

  // --- The invariant ---

  // The rows of the chunks marked IMPORTED, each chunk once.
  function ImportedRows(m: Manifest, chunks: seq<ChunkRow>): multiset<Row>
    requires |chunks| <= |m.chunks|
  {
    if chunks == [] then multiset{}
    else
      var n := |chunks| - 1;
      ImportedRows(m, chunks[..n]) + Contribution(m.chunks[n], chunks[n])
  }

  function Contribution(chunk: Chunk, row: ChunkRow): multiset<Row> {
    if row.IMPORTED? then multiset(chunk.rows) else multiset{}
  }

  function AllRows(chunks: seq<Chunk>): multiset<Row> {
    if chunks == [] then multiset{} else AllRows(chunks[..|chunks| - 1]) + multiset(chunks[|chunks| - 1].rows)
  }

  predicate PastImport(status: Status) {
    status in {STAGED, VERIFYING, SWAPPING, VERIFIED, MISMATCH, SUPERSEDED}
  }

  predicate ChunksOk(m: Manifest, chunks: seq<ChunkRow>)
    requires |chunks| == |m.chunks|
  {
    forall i :: 0 <= i < |chunks| && chunks[i].IMPORTED? ==>
      m.chunks[i].wellFormed && chunks[i].rows == |m.chunks[i].rows| == m.chunks[i].declared
  }

  ghost predicate RunOk(c: Config, r: RunId, row: RunRow) {
    && r in c.manifests && Validated(c.manifests[r])
    && |row.chunks| == |c.manifests[r].chunks|
    && ChunksOk(c.manifests[r], row.chunks)
    && (row.backup <==> row.targetExisted == Some(true))
    && (PastImport(row.status) ==> AllImported(row.chunks) && ImportedTotal(row.chunks) == c.manifests[r].rowCount)
  }

  ghost predicate RunsOk(c: Config, s: State) {
    forall r :: r in s.runs ==> RunOk(c, r, s.runs[r])
  }

  ghost predicate PcOk(c: Config, s: State) {
    s.pc.At? ==>
      && s.pc.run in c.manifests && Validated(c.manifests[s.pc.run])
      && (s.pc.point.Entered? || s.pc.run in s.runs)
      && (s.pc.run in s.runs ==> PointOk(s.pc.point, s.runs[s.pc.run]))
      && (s.pc.point.Compared? ==> s.pc.point.matched == Faithful(c, c.manifests[s.pc.run]))
  }

  // The rows of the run's chunks have the digest its manifest declares.
  predicate Faithful(c: Config, m: Manifest) {
    c.summarize(AllRows(m.chunks)) == m.summary
  }

  ghost predicate PointOk(point: Point, row: RunRow) {
    match point
    case Entered | Returning => true
    case Registered(firstTime) => firstTime ==> row.status == VALIDATED && !AnyImported(row.chunks)
    case Created => row.status in {VALIDATED, IMPORTING, FAILED}
    case Loading(next) =>
      row.status == IMPORTING && next <= |row.chunks| && forall i :: 0 <= i < next ==> row.chunks[i].IMPORTED?
    case Raising => row.status == IMPORTING
    case ToVerify => row.status in {STAGED, VERIFYING}
    case Checking | Compared(_) => row.status == VERIFYING
    case Older => row.status in {STAGED, SWAPPING}
    case Matched | Ordered(_) | Restored(_) => row.status == STAGED
    case Prepared(_) | Renamed(_) | RecoverAfter(_) => row.status == SWAPPING
  }

  // A staging table holds exactly the rows of the chunks marked IMPORTED.
  ghost predicate StagingOk(c: Config, s: State, r: RunId) {
    Staging(r) in s.catalog ==>
      && r in s.runs && RunOk(c, r, s.runs[r])
      && s.catalog[Staging(r)] == BaseTable(ImportedRows(c.manifests[r], s.runs[r].chunks), Some(r))
  }

  ghost predicate BackupOk(s: State, r: RunId) {
    Backup(r) in s.catalog ==> r in s.runs && s.catalog[Backup(r)].BaseTable?
  }

  ghost predicate CatalogOk(c: Config, s: State) {
    forall r :: StagingOk(c, s, r) && BackupOk(s, r)
  }

  // From verification to the rename, the staging table still has the verified content.
  ghost predicate VerifiedOk(c: Config, s: State) {
    forall r :: r in s.runs && r in c.manifests && IsTable(s, Staging(r)) && (s.runs[r].status == SWAPPING || AtVerified(s, r)) ==>
      Matches(c, r, s.catalog[Staging(r)].rows)
  }

  predicate AtVerified(s: State, r: RunId) {
    s.pc.At? && s.pc.run == r && (s.pc.point == Compared(true) || s.pc.point.Matched? || s.pc.point.Ordered?)
  }

  predicate AtSwapped(s: State) {
    s.pc.At? && (s.pc.point.Renamed? || s.pc.point.Restored?)
  }

  ghost predicate SwapOk(c: Config, s: State) {
    && (AtSwapped(s) && s.pc.run in c.manifests ==> IsTable(s, Live) && Matches(c, s.pc.run, s.catalog[Live].rows))
    && (s.pc.At? && (AtSwapped(s) || s.pc.point.RecoverAfter?) ==> Staging(s.pc.run) !in s.catalog)
    && (s.pc.At? && s.pc.point.Prepared? && s.pc.run in s.runs && s.runs[s.pc.run].backup ==> IsTable(s, Live))
  }

  // The live table is the original one or some run's verified staging table.
  ghost predicate LiveOk(c: Config, s: State) {
    && (c.original.Some? ==> Live in s.catalog && (c.original.value.BaseTable? ==> c.original.value.origin.None?))
    && (Live in s.catalog ==>
          || c.original == Some(s.catalog[Live])
          || (&& s.catalog[Live].BaseTable? && s.catalog[Live].origin.Some?
              && s.catalog[Live].origin.value in c.manifests
              && Matches(c, s.catalog[Live].origin.value, s.catalog[Live].rows)))
  }

  // Versions are strictly increasing in source time and linked to their predecessors.
  ghost predicate ChainOk(c: Config, versions: seq<Version>) {
    forall i :: 0 <= i < |versions| ==> LinkOk(c, versions, i)
  }

  ghost predicate LinkOk(c: Config, versions: seq<Version>, i: nat)
    requires i < |versions|
  {
    var v := versions[i];
    && v.run in c.manifests && Validated(c.manifests[v.run])
    && v.createdAt == c.manifests[v.run].createdAt && v.rowCount == c.manifests[v.run].rowCount
    && (i == 0 ==> v.previous.None? && v.previousRows.None? && v.netChange.None?)
    && (i > 0 ==>
          var p := versions[i - 1];
          && p.createdAt < v.createdAt
          && v.previous == Some(p.run) && v.previousRows == Some(p.rowCount)
          && v.netChange == Some(v.rowCount - p.rowCount))
  }

  ghost predicate AtPromotion(s: State) {
    s.pc.At? && (s.pc.point.Ordered? || s.pc.point.Prepared? || s.pc.point.Renamed? || s.pc.point.RecoverAfter? || s.pc.point.Restored?)
  }

  // The version order established under the lock still holds.
  ghost predicate OrderOk(c: Config, s: State) {
    AtPromotion(s) && s.pc.run in c.manifests ==> MayPromote(c, s, s.pc.run) && s.pc.point.latest == LatestRun(s.versions)
  }

  // Content of the latest version, or the original content while there is no version.
  ghost predicate IsCurrent(c: Config, s: State, n: Name) {
    && n in s.catalog
    && match Latest(s.versions)
       case None => c.original == Some(s.catalog[n])
       case Some(v) => s.catalog[n].BaseTable? && v.run in c.manifests && Matches(c, v.run, s.catalog[n].rows)
  }

  // It is never lost: it is live, or it is the backup of a swap that was not finalized.
  ghost predicate Conserved(c: Config, s: State) {
    (s.versions == [] && c.original.None?) || exists n :: Keeps(c, s, n)
  }

  ghost predicate Keeps(c: Config, s: State, n: Name) {
    IsCurrent(c, s, n) && (n.Live? || (n.Backup? && n.run !in VersionRuns(s)))
  }

  // It is live, unless the live table comes from a run that is not finalized.
  ghost predicate LatestIsLive(c: Config, s: State) {
    s.versions != [] ==> IsCurrent(c, s, Live) || LiveUnfinalized(s)
  }

  predicate LiveUnfinalized(s: State) {
    IsTable(s, Live) && s.catalog[Live].origin.Some? && s.catalog[Live].origin.value !in VersionRuns(s)
  }

  // A run with chunks is renamed into live at most once.
  ghost predicate SwapsOk(c: Config, s: State) {
    forall r :: r in s.swaps && r in c.manifests && c.manifests[r].chunks != [] ==>
      s.swaps[r] == 1 && Staging(r) !in s.catalog && r in s.runs && AllImported(s.runs[r].chunks)
  }

  // A table that left its staging name did so by a rename, with all rows of its run; a verified
  // staging table stays until then.
  ghost predicate OriginsOk(c: Config, s: State) {
    && (forall n :: n in s.catalog && !n.Staging? && s.catalog[n].BaseTable? && s.catalog[n].origin.Some? ==>
          var r := s.catalog[n].origin.value;
          r in s.swaps && r in c.manifests && s.catalog[n].rows == AllRows(c.manifests[r].chunks))
    && (s.pc.At? && (AtVerified(s, s.pc.run) || s.pc.point.Prepared?) && s.pc.run !in s.superseded ==> Staging(s.pc.run) in s.catalog)
  }

  ghost predicate Inv(c: Config, s: State) {
    && RunsOk(c, s) && PcOk(c, s) && CatalogOk(c, s) && VerifiedOk(c, s) && SwapOk(c, s)
    && LiveOk(c, s) && ChainOk(c, s.versions) && OrderOk(c, s) && Conserved(c, s) && SwapsOk(c, s)
    && OriginsOk(c, s) && LatestIsLive(c, s)
  }

  // --- Facts about the functions the code uses ---

  // The latest version is the last one recorded.
  lemma {:induction false} LatestIsLast(c: Config, versions: seq<Version>)
    requires ChainOk(c, versions)
    ensures Latest(versions) == if versions == [] then None else Some(versions[|versions| - 1])
  {
    if versions != [] {
      var n := |versions| - 1;
      assert LinkOk(c, versions, n);
      ChainPrefix(c, versions, n);
      LatestIsLast(c, versions[..n]);
    }
  }

  lemma {:induction false} ChainIncreases(c: Config, versions: seq<Version>, i: nat, j: nat)
    requires ChainOk(c, versions) && i < j < |versions|
    ensures versions[i].createdAt < versions[j].createdAt
  {
    assert LinkOk(c, versions, j);
    if i < j - 1 {
      ChainIncreases(c, versions, i, j - 1);
    }
  }

  // A run that may promote and has a version is the latest one.
  lemma PromotedRunIsLatest(c: Config, s: State, r: RunId)
    requires ChainOk(c, s.versions) && r in c.manifests && MayPromote(c, s, r) && r in VersionRuns(s)
    ensures LatestRun(s.versions) == Some(r)
  {
    LatestIsLast(c, s.versions);
    var i :| 0 <= i < |s.versions| && s.versions[i].run == r;
    assert LinkOk(c, s.versions, i);
    if i < |s.versions| - 1 {
      ChainIncreases(c, s.versions, i, |s.versions| - 1);
    }
  }

  lemma ChainPrefix(c: Config, versions: seq<Version>, n: nat)
    requires n <= |versions| && ChainOk(c, versions)
    ensures ChainOk(c, versions[..n])
  {
    forall i | 0 <= i < n
      ensures LinkOk(c, versions[..n], i)
    {
      assert LinkOk(c, versions, i);
    }
  }

  lemma AddSwap(x: multiset<Row>, y: multiset<Row>, z: multiset<Row>)
    ensures (x + y) + z == (x + z) + y
  {
  }

  lemma {:induction false} ImportedRowsAfter(m: Manifest, chunks: seq<ChunkRow>, i: nat, row: ChunkRow)
    requires |chunks| <= |m.chunks| && i < |chunks| && !chunks[i].IMPORTED?
    ensures ImportedRows(m, chunks[i := row]) == ImportedRows(m, chunks) + Contribution(m.chunks[i], row)
  {
    var n := |chunks| - 1;
    if i == n {
      assert chunks[i := row][..n] == chunks[..n];
    } else {
      assert chunks[i := row][..n] == chunks[..n][i := row];
      ImportedRowsAfter(m, chunks[..n], i, row);
      AddSwap(ImportedRows(m, chunks[..n]), Contribution(m.chunks[i], row), Contribution(m.chunks[n], chunks[n]));
    }
  }

  lemma {:induction false} ImportedIsAll(m: Manifest, rows: seq<ChunkRow>)
    requires |rows| <= |m.chunks| && AllImported(rows)
    ensures ImportedRows(m, rows) == AllRows(m.chunks[..|rows|])
  {
    if rows != [] {
      var n := |rows| - 1;
      assert m.chunks[..n + 1][..n] == m.chunks[..n];
      ImportedIsAll(m, rows[..n]);
    }
  }

  lemma StagingIsComplete(c: Config, s: State, r: RunId)
    requires RunsOk(c, s) && CatalogOk(c, s) && r in s.runs && PastImport(s.runs[r].status) && Staging(r) in s.catalog
    ensures r in c.manifests && IsTable(s, Staging(r)) && s.catalog[Staging(r)].rows == AllRows(c.manifests[r].chunks)
  {
    assert RunOk(c, r, s.runs[r]) && StagingOk(c, s, r);
    ImportedIsAll(c.manifests[r], s.runs[r].chunks);
    assert c.manifests[r].chunks[..|s.runs[r].chunks|] == c.manifests[r].chunks;
  }

  lemma FailedChunkAddsNothing(m: Manifest, chunks: seq<ChunkRow>, i: nat)
    requires |chunks| <= |m.chunks| && i < |chunks| && !chunks[i].IMPORTED?
    ensures ImportedRows(m, chunks[i := CHUNK_FAILED]) == ImportedRows(m, chunks)
  {
    ImportedRowsAfter(m, chunks, i, CHUNK_FAILED);
  }

  lemma {:induction false} NothingImported(m: Manifest, chunks: seq<ChunkRow>)
    requires |chunks| <= |m.chunks|
    requires forall i :: 0 <= i < |chunks| ==> !chunks[i].IMPORTED?
    ensures ImportedRows(m, chunks) == multiset{}
  {
    if chunks != [] {
      NothingImported(m, chunks[..|chunks| - 1]);
    }
  }

  // --- Every step keeps it ---

  lemma InitialInv(c: Config, s: State)
    requires Initial(c, s)
    ensures Inv(c, s)
  {
    if c.original.Some? {
      assert Keeps(c, s, Live);
    }
  }

  // A step that changes neither the catalogue, nor the versions, nor any chunk row.
  ghost predicate Moves(s: State, s': State, r: RunId) {
    && s'.catalog == s.catalog && s'.versions == s.versions && s'.swaps == s.swaps
    && (s'.runs == s.runs || (r in s.runs && r in s'.runs && s'.runs == s.runs[r := s'.runs[r]] && s'.runs[r].chunks == s.runs[r].chunks))
  }

  lemma MoveInv(c: Config, s: State, s': State, r: RunId)
    requires Inv(c, s) && Moves(s, s', r)
    requires r in s'.runs ==> RunOk(c, r, s'.runs[r])
    requires PcOk(c, s') && VerifiedOk(c, s') && SwapOk(c, s') && OrderOk(c, s') && OriginsOk(c, s')
    ensures Inv(c, s')
  {
    assert RunsOk(c, s');
    assert CatalogOk(c, s') by {
      forall q
        ensures StagingOk(c, s', q) && BackupOk(s', q)
      {
        assert StagingOk(c, s, q) && BackupOk(s, q);
      }
    }
    assert Conserved(c, s') by {
      if !(s.versions == [] && c.original.None?) {
        var n :| Keeps(c, s, n);
        assert Keeps(c, s', n);
      }
    }
  }

  lemma IdleInv(c: Config, s: State, s': State, r: RunId)
    requires Inv(c, s) && Moves(s, s', r) && s'.pc.Idle?
    requires r in s'.runs ==> RunOk(c, r, s'.runs[r]) && (s'.runs[r].status == SWAPPING ==> s.runs[r].status == SWAPPING)
    ensures Inv(c, s')
  {
    MoveInv(c, s, s', r);
  }

  lemma StepLock(c: Config, s: State, r: RunId, s': State)
    requires Inv(c, s) && Lock(c, s, r) == Some(s')
    ensures Inv(c, s')
  {
    MoveInv(c, s, s', r);
  }

  lemma StepRegister(c: Config, s: State, s': State)
    requires Inv(c, s) && s.pc.At? && s.pc.point.Entered? && s.pc.run in c.manifests && Register(c, s) == Some(s')
    ensures Inv(c, s')
  {
    var r := s.pc.run;
    if r in s.runs {
      MoveInv(c, s, s', r);
    } else {
      RegisterNew(c, s, s');
    }
  }

  lemma RegisterNew(c: Config, s: State, s': State)
    requires Inv(c, s) && s.pc.At? && s.pc.point.Entered? && s.pc.run in c.manifests && s.pc.run !in s.runs
    requires s' == s.(runs := s.runs[s.pc.run := RunRow(VALIDATED, seq(|c.manifests[s.pc.run].chunks|, _ => PENDING), None, false)],
                      pc := At(s.pc.run, Registered(true)))
    ensures Inv(c, s')
  {
    var r := s.pc.run;
    assert RunOk(c, r, s'.runs[r]);
    forall q
      ensures StagingOk(c, s', q) && BackupOk(s', q)
    {
      assert StagingOk(c, s, q) && BackupOk(s, q);
    }
    assert StagingOk(c, s, r);
    assert Conserved(c, s') by {
      if !(s.versions == [] && c.original.None?) {
        var n :| Keeps(c, s, n);
        assert Keeps(c, s', n);
      }
    }
  }

  ghost predicate Running(c: Config, s: State) {
    s.pc.At? && s.pc.run in c.manifests && s.pc.run in s.runs
  }

  // Statements that only set the status of the run, or nothing at all.
  predicate IsEarlyMove(op: Op) {
    op in {RESUME, BEGIN_IMPORT, SKIP_CHUNK, COMPLETE_STAGED, SET_VERIFYING, COMPARE_DIGEST, RECORD_VERIFICATION}
  }

  predicate IsLateMove(op: Op) {
    op in {SUPERSEDE, PROCEED, PREPARE_SWAPPING, RECORD_RECOVERED, RESTORE_INTENT}
  }

  predicate IsMove(op: Op) {
    IsEarlyMove(op) || IsLateMove(op)
  }

  lemma EarlyMoveVerified(c: Config, s: State, op: Op, s': State)
    requires PcOk(c, s) && VerifiedOk(c, s) && Running(c, s) && IsEarlyMove(op) && Execute(c, s, op) == Some(s')
    ensures VerifiedOk(c, s')
  {
    var r := s.pc.run;
    forall q | q in s'.runs && q in c.manifests && IsTable(s', Staging(q)) && (s'.runs[q].status == SWAPPING || AtVerified(s', q))
      ensures Matches(c, q, s'.catalog[Staging(q)].rows)
    {
      assert q == r || (IsTable(s, Staging(q)) && s.runs[q].status == SWAPPING);
    }
  }

  lemma LateMoveVerified(c: Config, s: State, op: Op, s': State)
    requires PcOk(c, s) && VerifiedOk(c, s) && SwapOk(c, s) && Running(c, s) && IsLateMove(op) && Execute(c, s, op) == Some(s')
    ensures VerifiedOk(c, s')
  {
    var r := s.pc.run;
    forall q | q in s'.runs && q in c.manifests && IsTable(s', Staging(q)) && (s'.runs[q].status == SWAPPING || AtVerified(s', q))
      ensures Matches(c, q, s'.catalog[Staging(q)].rows)
    {
      assert IsTable(s, Staging(q)) && (s.runs[q].status == SWAPPING || AtVerified(s, q));
    }
  }

  lemma EarlyMovePc(c: Config, s: State, op: Op, s': State)
    requires PcOk(c, s) && RunsOk(c, s) && CatalogOk(c, s) && Running(c, s) && IsEarlyMove(op) && Execute(c, s, op) == Some(s')
    ensures RunOk(c, s.pc.run, s'.runs[s.pc.run]) && PcOk(c, s')
  {
    assert RunOk(c, s.pc.run, s.runs[s.pc.run]);
    if op.COMPARE_DIGEST? {
      StagingIsComplete(c, s, s.pc.run);
    }
  }

  lemma LateMoveRun(c: Config, s: State, op: Op, s': State)
    requires RunsOk(c, s) && PcOk(c, s) && Running(c, s) && IsLateMove(op) && Execute(c, s, op) == Some(s')
    ensures RunOk(c, s.pc.run, s'.runs[s.pc.run])
  {
    assert RunOk(c, s.pc.run, s.runs[s.pc.run]);
  }

  lemma LateMovePoint(c: Config, s: State, op: Op, s': State)
    requires PcOk(c, s) && Running(c, s) && IsLateMove(op) && Execute(c, s, op) == Some(s')
    ensures PcOk(c, s')
  {
  }

  lemma LateMovePc(c: Config, s: State, op: Op, s': State)
    requires PcOk(c, s) && RunsOk(c, s) && Running(c, s) && IsLateMove(op) && Execute(c, s, op) == Some(s')
    ensures RunOk(c, s.pc.run, s'.runs[s.pc.run]) && PcOk(c, s')
  {
    LateMoveRun(c, s, op, s');
    LateMovePoint(c, s, op, s');
  }

  lemma EarlyMoveSwap(c: Config, s: State, op: Op, s': State)
    requires OriginsOk(c, s) && Running(c, s) && IsEarlyMove(op) && Execute(c, s, op) == Some(s')
    ensures SwapOk(c, s') && OrderOk(c, s') && OriginsOk(c, s')
  {
  }

  lemma LateMoveSwap(c: Config, s: State, op: Op, s': State)
    requires RunsOk(c, s) && SwapOk(c, s) && OrderOk(c, s) && OriginsOk(c, s)
    requires Running(c, s) && IsLateMove(op) && Execute(c, s, op) == Some(s')
    ensures SwapOk(c, s') && OrderOk(c, s') && OriginsOk(c, s')
  {
    assert RunOk(c, s.pc.run, s.runs[s.pc.run]);
  }

  lemma MoveMoves(c: Config, s: State, op: Op, s': State)
    requires Running(c, s) && IsMove(op) && Execute(c, s, op) == Some(s')
    ensures Moves(s, s', s.pc.run)
  {
  }

  lemma StepMove(c: Config, s: State, op: Op, s': State)
    requires Inv(c, s) && Running(c, s) && IsMove(op) && Execute(c, s, op) == Some(s')
    ensures Inv(c, s')
  {
    MoveMoves(c, s, op, s');
    if IsEarlyMove(op) {
      EarlyMovePc(c, s, op, s');
      EarlyMoveSwap(c, s, op, s');
      EarlyMoveVerified(c, s, op, s');
    } else {
      LateMovePc(c, s, op, s');
      LateMoveSwap(c, s, op, s');
      LateMoveVerified(c, s, op, s');
    }
    MoveInv(c, s, s', s.pc.run);
  }

  lemma KeepsInv(c: Config, s: State, s': State)
    requires Conserved(c, s) && s'.versions == s.versions
    requires forall n :: n in s.catalog && (n.Live? || n.Backup?) ==> n in s'.catalog && s'.catalog[n] == s.catalog[n]
    ensures Conserved(c, s')
  {
    if !(s.versions == [] && c.original.None?) {
      var n :| Keeps(c, s, n);
      assert Keeps(c, s', n);
    }
  }

  lemma OpenStagingCatalog(c: Config, s: State, s': State)
    requires RunsOk(c, s) && CatalogOk(c, s) && PcOk(c, s)
    requires Running(c, s) && s.pc.point.Registered? && OpenStaging(s) == Some(s') && s'.catalog != s.catalog
    ensures CatalogOk(c, s') && !AnyImported(s.runs[s.pc.run].chunks)
  {
    var r := s.pc.run;
    assert RunOk(c, r, s.runs[r]);
    NothingImported(c.manifests[r], s.runs[r].chunks);
    forall q
      ensures StagingOk(c, s', q) && BackupOk(s', q)
    {
      assert StagingOk(c, s, q) && BackupOk(s, q);
    }
  }

  lemma OpenStagingVerified(c: Config, s: State, s': State)
    requires PcOk(c, s) && VerifiedOk(c, s) && Running(c, s) && s.pc.point.Registered? && OpenStaging(s) == Some(s')
    ensures VerifiedOk(c, s')
  {
    forall q | q in s'.runs && q in c.manifests && IsTable(s', Staging(q)) && (s'.runs[q].status == SWAPPING || AtVerified(s', q))
      ensures Matches(c, q, s'.catalog[Staging(q)].rows)
    {
      assert IsTable(s, Staging(q)) && s.runs[q].status == SWAPPING;
    }
  }

  lemma OpenStagingSwaps(c: Config, s: State, s': State)
    requires RunsOk(c, s) && SwapsOk(c, s) && Running(c, s) && s.pc.point.Registered? && OpenStaging(s) == Some(s')
    requires !AnyImported(s.runs[s.pc.run].chunks)
    ensures SwapsOk(c, s')
  {
    var r := s.pc.run;
    assert RunOk(c, r, s.runs[r]);
    assert s.runs[r].chunks != [] ==> !s.runs[r].chunks[0].IMPORTED?;
  }

  lemma StepOpenStaging(c: Config, s: State, s': State)
    requires Inv(c, s) && Running(c, s) && s.pc.point.Registered? && OpenStaging(s) == Some(s')
    ensures Inv(c, s')
  {
    assert RunOk(c, s.pc.run, s.runs[s.pc.run]);
    if s'.catalog == s.catalog {
      MoveInv(c, s, s', s.pc.run);
    } else {
      OpenStagingCatalog(c, s, s');
      KeepsInv(c, s, s');
      OpenStagingSwaps(c, s, s');
      OpenStagingVerified(c, s, s');
    }
  }

  // A step that changes one chunk row and the staging table of the run being imported.
  ghost predicate Imports(s: State, s': State, r: RunId) {
    && s.pc.At? && s.pc.run == r && s'.pc.At? && s'.pc.run == r && (s'.pc.point.Loading? || s'.pc.point.Raising?)
    && r in s.runs && r in s'.runs && s'.runs == s.runs[r := s'.runs[r]] && s'.runs[r].status == s.runs[r].status == IMPORTING
    && (forall n :: n != Staging(r) ==> (n in s.catalog <==> n in s'.catalog) && (n in s.catalog ==> s'.catalog[n] == s.catalog[n]))
    && s'.versions == s.versions && s'.swaps == s.swaps && s'.superseded == s.superseded
    && !AllImported(s.runs[r].chunks)
  }

  lemma ImportsInv(c: Config, s: State, s': State, r: RunId)
    requires Inv(c, s) && Imports(s, s', r)
    requires RunsOk(c, s') && CatalogOk(c, s') && PcOk(c, s')
    ensures Inv(c, s')
  {
    KeepsInv(c, s, s');
    ImportsVerified(c, s, s', r);
    ImportsSwaps(c, s, s', r);
  }

  lemma ImportsSwaps(c: Config, s: State, s': State, r: RunId)
    requires RunsOk(c, s) && SwapsOk(c, s) && OriginsOk(c, s) && Imports(s, s', r)
    ensures SwapsOk(c, s') && OriginsOk(c, s')
  {
    assert RunOk(c, r, s.runs[r]);
  }

  lemma ImportsVerified(c: Config, s: State, s': State, r: RunId)
    requires VerifiedOk(c, s) && Imports(s, s', r)
    ensures VerifiedOk(c, s')
  {
    forall q | q in s'.runs && q in c.manifests && IsTable(s', Staging(q)) && (s'.runs[q].status == SWAPPING || AtVerified(s', q))
      ensures Matches(c, q, s'.catalog[Staging(q)].rows)
    {
      assert q != r && IsTable(s, Staging(q)) && s.runs[q].status == SWAPPING;
    }
  }

  lemma ImportChunkRows(c: Config, s: State, s': State)
    requires RunsOk(c, s) && CatalogOk(c, s) && PcOk(c, s)
    requires Running(c, s) && s.pc.point.Loading? && ImportChunk(c, s) == Some(s')
    ensures RunsOk(c, s') && CatalogOk(c, s') && PcOk(c, s')
  {
    var r, i := s.pc.run, s.pc.point.next;
    assert RunOk(c, r, s.runs[r]) && StagingOk(c, s, r);
    ImportedRowsAfter(c.manifests[r], s.runs[r].chunks, i, IMPORTED(|c.manifests[r].chunks[i].rows|));
    assert RunOk(c, r, s'.runs[r]);
    forall q
      ensures StagingOk(c, s', q) && BackupOk(s', q)
    {
      assert StagingOk(c, s, q) && BackupOk(s, q);
    }
  }

  lemma RejectChunkRows(c: Config, s: State, s': State)
    requires RunsOk(c, s) && CatalogOk(c, s) && PcOk(c, s)
    requires Running(c, s) && s.pc.point.Loading? && RejectChunk(s) == Some(s')
    ensures RunsOk(c, s') && CatalogOk(c, s') && PcOk(c, s')
  {
    var r, i := s.pc.run, s.pc.point.next;
    assert RunOk(c, r, s.runs[r]) && StagingOk(c, s, r);
    FailedChunkAddsNothing(c.manifests[r], s.runs[r].chunks, i);
    assert RunOk(c, r, s'.runs[r]);
    forall q
      ensures StagingOk(c, s', q) && BackupOk(s', q)
    {
      assert StagingOk(c, s, q) && BackupOk(s, q);
    }
  }

  lemma StepImportChunk(c: Config, s: State, s': State)
    requires Inv(c, s) && Running(c, s) && s.pc.point.Loading?
    requires ImportChunk(c, s) == Some(s') || RejectChunk(s) == Some(s')
    ensures Inv(c, s')
  {
    if ImportChunk(c, s) == Some(s') {
      ImportChunkRows(c, s, s');
    } else {
      RejectChunkRows(c, s, s');
    }
    ImportsInv(c, s, s', s.pc.run);
  }

  lemma RenameCatalog(c: Config, s: State, s': State)
    requires CatalogOk(c, s) && PcOk(c, s) && SwapOk(c, s)
    requires Running(c, s) && s.pc.point.Prepared? && Rename(s) == Some(s')
    ensures CatalogOk(c, s')
    ensures IsTable(s', Live) && s'.catalog[Live].origin == Some(s.pc.run) && Staging(s.pc.run) !in s'.catalog
    ensures IsTable(s, Staging(s.pc.run)) && s'.catalog[Live] == s.catalog[Staging(s.pc.run)]
  {
    assert StagingOk(c, s, s.pc.run);
    forall q
      ensures StagingOk(c, s', q) && BackupOk(s', q)
    {
      assert StagingOk(c, s, q) && BackupOk(s, q);
    }
  }

  // The old live table is now the backup of this run, which has no version yet.
  lemma RenameConserves(c: Config, s: State, s': State)
    requires CatalogOk(c, s) && PcOk(c, s) && SwapOk(c, s) && VerifiedOk(c, s) && OrderOk(c, s) && ChainOk(c, s.versions)
    requires Conserved(c, s) && LiveOk(c, s)
    requires Running(c, s) && s.pc.point.Prepared? && Rename(s) == Some(s')
    ensures Conserved(c, s') && LatestIsLive(c, s') && LiveOk(c, s')
  {
    var r := s.pc.run;
    RenameCatalog(c, s, s');
    assert Matches(c, r, s'.catalog[Live].rows);
    if r in VersionRuns(s) {
      PromotedRunIsLatest(c, s, r);
      assert Keeps(c, s', Live);
    } else {
      assert LiveUnfinalized(s');
      if !(s.versions == [] && c.original.None?) {
        var n :| Keeps(c, s, n);
        assert Keeps(c, s', if n.Live? then Backup(r) else n);
      }
    }
  }

  lemma RenameSwaps(c: Config, s: State, s': State)
    requires RunsOk(c, s) && PcOk(c, s) && CatalogOk(c, s) && SwapsOk(c, s) && SwapOk(c, s)
    requires Running(c, s) && s.pc.point.Prepared? && Rename(s) == Some(s')
    ensures SwapsOk(c, s')
  {
    assert RunOk(c, s.pc.run, s.runs[s.pc.run]);
    RenameCatalog(c, s, s');
  }

  lemma RenameOrigins(c: Config, s: State, s': State)
    requires RunsOk(c, s) && PcOk(c, s) && CatalogOk(c, s) && OriginsOk(c, s) && SwapOk(c, s)
    requires Running(c, s) && s.pc.point.Prepared? && Rename(s) == Some(s')
    ensures OriginsOk(c, s')
  {
    assert RunOk(c, s.pc.run, s.runs[s.pc.run]);
    RenameCatalog(c, s, s');
    StagingIsComplete(c, s, s.pc.run);
  }

  lemma RenameVerified(c: Config, s: State, s': State)
    requires VerifiedOk(c, s) && PcOk(c, s) && CatalogOk(c, s) && SwapOk(c, s)
    requires Running(c, s) && s.pc.point.Prepared? && Rename(s) == Some(s')
    ensures VerifiedOk(c, s') && SwapOk(c, s')
  {
    RenameCatalog(c, s, s');
    forall q | q in s'.runs && q in c.manifests && IsTable(s', Staging(q)) && (s'.runs[q].status == SWAPPING || AtVerified(s', q))
      ensures Matches(c, q, s'.catalog[Staging(q)].rows)
    {
      assert IsTable(s, Staging(q)) && s.runs[q].status == SWAPPING;
    }
  }

  lemma StepRename(c: Config, s: State, s': State)
    requires Inv(c, s) && Running(c, s) && s.pc.point.Prepared? && Rename(s) == Some(s')
    ensures Inv(c, s')
  {
    RenameCatalog(c, s, s');
    RenameConserves(c, s, s');
    RenameSwaps(c, s, s');
    RenameOrigins(c, s, s');
    RenameVerified(c, s, s');
  }

  lemma FinalizeVersions(c: Config, s: State, s': State)
    requires ChainOk(c, s.versions) && PcOk(c, s) && SwapOk(c, s) && Running(c, s) && s.pc.point.Renamed? && Finalize(c, s) == Some(s') && s'.versions != s.versions
    ensures ChainOk(c, s'.versions) && Conserved(c, s') && IsCurrent(c, s', Live)
  {
    LatestIsLast(c, s.versions);
    forall i | 0 <= i < |s'.versions|
      ensures LinkOk(c, s'.versions, i)
    {
      assert i < |s.versions| ==> LinkOk(c, s.versions, i);
      assert |s.versions| > 0 ==> LinkOk(c, s.versions, |s.versions| - 1);
    }
    LatestIsLast(c, s'.versions);
    assert Keeps(c, s', Live);
  }

  lemma StepFinalize(c: Config, s: State, s': State)
    requires Inv(c, s) && Running(c, s) && s.pc.point.Renamed? && Finalize(c, s) == Some(s')
    ensures Inv(c, s')
  {
    var verified := SetStatus(s, s.pc.run, VERIFIED, Returning);
    MarkedVerified(c, s);
    if s'.versions != s.versions {
      FinalizeVersions(c, s, s');
      OtherVersions(c, verified, s');
    } else {
      assert s' == verified;
    }
  }

  lemma MarkedVerified(c: Config, s: State)
    requires Inv(c, s) && Running(c, s) && s.pc.point.Renamed?
    ensures Inv(c, SetStatus(s, s.pc.run, VERIFIED, Returning))
  {
    assert RunOk(c, s.pc.run, s.runs[s.pc.run]);
    MoveInv(c, s, SetStatus(s, s.pc.run, VERIFIED, Returning), s.pc.run);
  }

  lemma OtherVersions(c: Config, t: State, s': State)
    requires Inv(c, t) && s' == t.(versions := s'.versions) && ChainOk(c, s'.versions) && Conserved(c, s') && IsCurrent(c, s', Live) && !AtPromotion(t)
    ensures Inv(c, s')
  {
    forall q
      ensures StagingOk(c, s', q) && BackupOk(s', q)
    {
      assert StagingOk(c, t, q) && BackupOk(t, q);
    }
  }

  lemma StepStop(c: Config, s: State, step: Step, s': State)
    requires Inv(c, s) && step in {RELEASE, FAIL, CRASH} && Apply(c, s, step) == Some(s')
    ensures Inv(c, s')
  {
    var r := if s.pc.At? then s.pc.run else 0;
    assert r in s.runs ==> RunOk(c, r, s.runs[r]);
    IdleInv(c, s, s', r);
  }

  lemma StepDropBackup(c: Config, s: State, r: RunId, s': State)
    requires Inv(c, s) && DropBackup(s, r) == Some(s')
    ensures Inv(c, s')
  {
    forall q
      ensures StagingOk(c, s', q) && BackupOk(s', q)
    {
      assert StagingOk(c, s, q) && BackupOk(s, q);
    }
    if !(s.versions == [] && c.original.None?) {
      var n :| Keeps(c, s, n);
      assert Keeps(c, s', n);
    }
  }

  lemma StepDropStaging(c: Config, s: State, r: RunId, s': State)
    requires Inv(c, s) && DropStaging(s, r) == Some(s')
    ensures Inv(c, s')
  {
    forall q
      ensures StagingOk(c, s', q) && BackupOk(s', q)
    {
      assert StagingOk(c, s, q) && BackupOk(s, q);
    }
    KeepsInv(c, s, s');
  }

  lemma StepInv(c: Config, s: State, step: Step, s': State)
    requires Inv(c, s) && Apply(c, s, step) == Some(s')
    ensures Inv(c, s')
  {
    match step
    case LOCK(r) => StepLock(c, s, r, s');
    case REGISTER => StepRegister(c, s, s');
    case RELEASE | FAIL | CRASH => StepStop(c, s, step, s');
    case DROP_BACKUP(r) => StepDropBackup(c, s, r, s');
    case DROP_STAGING(r) => StepDropStaging(c, s, r, s');
    case UNLINK(r) => MoveInv(c, s, s', r);
    case STATEMENT(op) =>
      if IsMove(op) { StepMove(c, s, op, s'); }
      else if op.OPEN_STAGING? { StepOpenStaging(c, s, s'); }
      else if op.IMPORT_CHUNK? || op.REJECT_CHUNK? { StepImportChunk(c, s, s'); }
      else if op.RENAME? { StepRename(c, s, s'); }
      else { StepFinalize(c, s, s'); }
  }
}
