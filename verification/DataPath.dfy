/**
  The path of a table's rows: scanned, encoded and split into chunk files at the source
  (src/airgap_sync/source/scanner.py), validated, read line by line and imported at the
  destination (src/airgap_sync/destination/incoming.py and processor.py), and read back for the
  digest.
 */
module DataPath {
  import opened Wrappers
  import opened Digest
  import opened RowCodec
  import opened Transport
  import opened Chunking
  import opened Promotion
  import PromotionSafety
  import PromotionCompletion
  import PromotionTheorems

  type Values = seq<Value>

  // --- The source ---

  predicate Encodable(rows: seq<Values>) {
    forall i :: 0 <= i < |rows| ==> EncodeRow(rows[i]).Ok?
  }

  function Encoded(rows: seq<Values>): (r: seq<Row>)
    requires Encodable(rows)
    ensures |r| == |rows| && forall i :: 0 <= i < |rows| ==> r[i] == EncodeRow(rows[i]).value
  {
    seq(|rows|, i requires 0 <= i < |rows| => EncodeRow(rows[i]).value)
  }

  datatype ScanResult = ScanResult(chunks: seq<ChunkMeta>, verification: Summary)

  // The chunks are the greedy split of all rows, and the summary is the digest of all rows. The
  // scan fails exactly if some row cannot be encoded.
  method ScanTable(batches: seq<seq<Values>>, thresholds: Thresholds, hs: Hashes)
      returns (r: Result<ScanResult, CodecError>, ghost split: seq<seq<Row>>)
    ensures r.Ok? <==> Encodable(Flatten(batches))
    ensures r.Ok? ==>
      var rows := Encoded(Flatten(batches));
      && GreedySplit(thresholds, rows, split) && r.value.chunks == MetasOf(split)
      && r.value.verification == Summarize(hs, rows)
  {
    var digest := new MultisetDigest(hs);
    var writer := new ChunkWriter(thresholds);
    split := [];
    for i := 0 to |batches|
      invariant fresh(writer) && fresh(digest) && (writer.current != null ==> fresh(writer.current))
      invariant writer.thresholds == thresholds && digest.hs == hs
      invariant Scanned(writer, digest, Flatten(batches[..i]))
    {
      assert batches[..i + 1][..i] == batches[..i];
      var error := ScanBatch(writer, digest, batches[i], Flatten(batches[..i]));
      if error.Some? {
        NotEncodable(batches, i);
        writer.Abort();
        return Err(error.value), [];
      }
    }
    assert batches[..|batches|] == batches;
    var verification := digest.Finish(Encoded(Flatten(batches)));
    var chunks, error := writer.Finish();
    split := writer.closed;
    r := Ok(ScanResult(chunks, verification));
  }

  // Writer and digest have taken in these rows.
  ghost predicate Scanned(writer: ChunkWriter, digest: MultisetDigest, rows: seq<Values>)
    reads writer, writer.current, digest
  {
    writer.Valid() && Encodable(rows) && writer.Written() == Encoded(rows) && digest.Holds(Encoded(rows))
  }

  method ScanBatch(writer: ChunkWriter, digest: MultisetDigest, batch: seq<Values>, ghost before: seq<Values>)
      returns (error: Option<CodecError>)
    requires Scanned(writer, digest, before)
    modifies writer, writer.current, digest
    ensures error.None? ==> Scanned(writer, digest, before + batch)
    ensures error.Some? ==> !Encodable(batch) && !writer.finished
    ensures writer.current == old(writer.current) || writer.current == null || fresh(writer.current)
  {
    ghost var done := before;
    for j := 0 to |batch|
      invariant done == before + batch[..j] && Scanned(writer, digest, done)
      invariant writer.current == old(writer.current) || writer.current == null || fresh(writer.current)
    {
      var encoded := EncodeRow(batch[j]);
      if encoded.Err? { return Some(encoded.error); }
      ScanRow(writer, digest, encoded.value, done, batch[j]);
      NextOf(before, batch, j);
      done := done + [batch[j]];
    }
    assert batch[..|batch|] == batch;
    error := None;
  }

  method ScanRow(writer: ChunkWriter, digest: MultisetDigest, encoded: Row, ghost before: seq<Values>, ghost row: Values)
    requires Scanned(writer, digest, before) && EncodeRow(row) == Ok(encoded)
    modifies writer, writer.current, digest
    ensures Scanned(writer, digest, before + [row])
    ensures writer.current == old(writer.current) || writer.current == null || fresh(writer.current)
  {
    EncodedAppend(before, row);
    var error := writer.WriteRow(encoded);
    digest.Update(encoded, Encoded(before));
  }

  lemma NotEncodable(batches: seq<seq<Values>>, i: nat)
    requires i < |batches| && !Encodable(batches[i])
    ensures !Encodable(Flatten(batches))
  {
    var j :| 0 <= j < |batches[i]| && !EncodeRow(batches[i][j]).Ok?;
    FlattenHas(batches, i, j);
  }

  lemma NextOf<T>(before: seq<T>, items: seq<T>, j: nat)
    requires j < |items|
    ensures before + items[..j + 1] == before + items[..j] + [items[j]]
  {
  }

  lemma EncodedAppend(rows: seq<Values>, row: Values)
    requires Encodable(rows) && EncodeRow(row).Ok?
    ensures Encodable(rows + [row]) && Encoded(rows + [row]) == Encoded(rows) + [EncodeRow(row).value]
  {
  }

  lemma {:induction false} FlattenHas<T>(parts: seq<seq<T>>, i: nat, j: nat)
    requires i < |parts| && j < |parts[i]|
    ensures exists k :: 0 <= k < |Flatten(parts)| && Flatten(parts)[k] == parts[i][j]
  {
    var n := |parts| - 1;
    var before := Flatten(parts[..n]);
    if i == n {
      assert Flatten(parts)[|before| + j] == parts[i][j];
    } else {
      FlattenHas(parts[..n], i, j);
      var k :| 0 <= k < |before| && before[k] == parts[..n][i][j];
      assert Flatten(parts)[k] == parts[i][j];
    }
  }

  // --- The manifest ---

  datatype Declared = Declared(rowCount: nat, chunks: seq<ChunkMeta>, verification: Summary)

  // A manifest file; createdAt is missing where its text is no time with a time zone.
  datatype ManifestFile = ManifestFile(
    run: string, createdAt: Option<int>, protocol: int, runType: string, algorithm: string, schemaFile: string, declared: Declared)

  datatype ManifestError =
    | RUN_ID_MISMATCH | INVALID_SOURCE_TIMESTAMP | UNSUPPORTED_PROTOCOL | UNSUPPORTED_RUN_TYPE
    | UNSUPPORTED_VERIFICATION_ALGORITHM | ROW_COUNT_MISMATCH | INVALID_SCHEMA_FILENAME
    | CHUNK_SEQUENCE_GAP | CHUNK_NAME_MISMATCH

  const PROTOCOL_VERSION := 1
  const FULL_SNAPSHOT := "FULL_SNAPSHOT"
  const DIGEST_ALGORITHM := "multiset_digest_v1"
  const SCHEMA_FILENAME := "schema.sql"

  // The manifest the source writes.
  function Written(run: string, createdAt: int, d: Declared): ManifestFile {
    ManifestFile(run, Some(createdAt), PROTOCOL_VERSION, FULL_SNAPSHOT, DIGEST_ALGORITHM, SCHEMA_FILENAME, d)
  }

  predicate NamedInOrder(chunks: seq<ChunkMeta>) {
    forall i :: 0 <= i < |chunks| ==> chunks[i].sequence == i + 1 && chunks[i].file == ChunkFileName(i + 1)
  }

  function TotalRows(chunks: seq<ChunkMeta>): nat {
    if chunks == [] then 0 else TotalRows(chunks[..|chunks| - 1]) + chunks[|chunks| - 1].rows
  }

  // What the destination checks before it accepts a run: a manifest is accepted exactly if it is one
  // the source writes for that run, with counts that agree and chunks that are named in order.
  method ValidateManifest(f: ManifestFile, run: string) returns (r: Result<nat, ManifestError>)
    ensures r.Ok? <==>
      && f.createdAt.Some? && f == Written(run, f.createdAt.value, f.declared)
      && f.declared.verification.rowCount == f.declared.rowCount == TotalRows(f.declared.chunks)
      && NamedInOrder(f.declared.chunks)
    ensures r.Ok? ==> r.value == |f.declared.chunks|
    ensures r == Err(RUN_ID_MISMATCH) <==> f.run != run
    ensures r == Err(INVALID_SOURCE_TIMESTAMP) <==> f.run == run && f.createdAt.None?
    ensures r.Err? && r.error in {CHUNK_SEQUENCE_GAP, CHUNK_NAME_MISMATCH} ==>
      exists i :: 0 <= i < |f.declared.chunks| && NamedInOrder(f.declared.chunks[..i])
                  && if r.error.CHUNK_SEQUENCE_GAP? then f.declared.chunks[i].sequence != i + 1
                     else f.declared.chunks[i].file != ChunkFileName(i + 1)
  {
    if f.run != run { return Err(RUN_ID_MISMATCH); }
    if f.createdAt.None? { return Err(INVALID_SOURCE_TIMESTAMP); }
    if f.protocol != PROTOCOL_VERSION { return Err(UNSUPPORTED_PROTOCOL); }
    if f.runType != FULL_SNAPSHOT { return Err(UNSUPPORTED_RUN_TYPE); }
    if f.algorithm != DIGEST_ALGORITHM { return Err(UNSUPPORTED_VERIFICATION_ALGORITHM); }
    var m := f.declared;
    if m.rowCount != m.verification.rowCount { return Err(ROW_COUNT_MISMATCH); }
    if f.schemaFile != SCHEMA_FILENAME { return Err(INVALID_SCHEMA_FILENAME); }
    var rows := 0;
    for i := 0 to |m.chunks|
      invariant NamedInOrder(m.chunks[..i])
      invariant rows == TotalRows(m.chunks[..i])
    {
      if m.chunks[i].sequence != i + 1 { return Err(CHUNK_SEQUENCE_GAP); }
      if m.chunks[i].file != ChunkFileName(i + 1) { return Err(CHUNK_NAME_MISMATCH); }
      assert m.chunks[..i + 1][..i] == m.chunks[..i];
      rows := rows + m.chunks[i].rows;
    }
    assert m.chunks[..|m.chunks|] == m.chunks;
    if rows != m.rowCount { return Err(ROW_COUNT_MISMATCH); }
    r := Ok(|m.chunks|);
  }

  lemma {:induction false} TotalIsSize(chunks: seq<seq<Row>>)
    ensures TotalRows(MetasOf(chunks)) == |Flatten(chunks)|
  {
    if chunks != [] {
      var n := |chunks| - 1;
      TotalIsSize(chunks[..n]);
      assert MetasOf(chunks)[..n] == MetasOf(chunks[..n]);
    }
  }

  // What the source declares about a split always passes the checks of its counts and names, and its
  // own check that the rows of the chunks are as many as the rows of the digest.
  lemma ScanIsValid(t: Thresholds, hs: Hashes, rows: seq<Row>, split: seq<seq<Row>>)
    requires GreedySplit(t, rows, split)
    ensures var m := Declared(Summarize(hs, rows).rowCount, MetasOf(split), Summarize(hs, rows));
            && m.verification.rowCount == m.rowCount == TotalRows(m.chunks)
            && NamedInOrder(m.chunks) && forall i :: 0 <= i < |m.chunks| ==> m.chunks[i].rows > 0
  {
    TotalIsSize(split);
  }

  // --- Reading a chunk file ---

  // Trailing line breaks are stripped.
  function Stripped(line: Bytes): Bytes {
    if line != [] && line[|line| - 1] in {LF, CR} then Stripped(line[..|line| - 1]) else line
  }

  // The lines of a file, without what ends them; the last one need not be ended.
  function Lines(content: Bytes): seq<Bytes> {
    StripAll(Ended(Split(content, LF)))
  }

  function Ended(parts: seq<Bytes>): seq<Bytes>
    requires parts != []
  {
    if parts[|parts| - 1] == [] then parts[..|parts| - 1] else parts
  }

  function StripAll(lines: seq<Bytes>): (r: seq<Bytes>)
    ensures |r| == |lines| && forall i :: 0 <= i < |r| ==> r[i] == Stripped(lines[i])
  {
    seq(|lines|, i requires 0 <= i < |lines| => Stripped(lines[i]))
  }

  // The row as it is stored and will be read back: its line must decode, with the right width.
  function StoredRow(lib: Library, width: nat, line: Bytes): Option<Row> {
    var values := DecodeRow(lib, line);
    if values.Err? || |values.value| != width then None
    else
      var row := EncodeRow(values.value);
      if row.Err? then None else Some(row.value)
  }

  function StoredRows(lib: Library, width: nat, lines: seq<Bytes>): Option<seq<Row>> {
    if lines == [] then Some([])
    else
      var first, rest := StoredRow(lib, width, lines[0]), StoredRows(lib, width, lines[1..]);
      if first.None? || rest.None? then None else Some([first.value] + rest.value)
  }

  // What the importer finds in a chunk file.
  function ReadChunk(lib: Library, width: nat, meta: ChunkMeta): Chunk {
    var rows := StoredRows(lib, width, Lines(meta.content));
    if rows.None? then Chunk([], false, meta.rows) else Chunk(rows.value, true, meta.rows)
  }

  datatype ImportError = ROW_NOT_DECODED | CHUNK_ROW_COUNT_MISMATCH

  // The import of a chunk: line by line, in batches. It inserts exactly the rows of the chunk, and
  // fails exactly if a line cannot be decoded or the number of rows is not the declared one.
  method ImportRows(lib: Library, width: nat, meta: ChunkMeta, batchRows: nat) returns (r: Result<multiset<Row>, ImportError>)
    requires 0 < batchRows
    ensures var chunk := ReadChunk(lib, width, meta);
            && (r.Ok? <==> chunk.wellFormed && |chunk.rows| == chunk.declared)
            && (r.Ok? ==> r.value == multiset(chunk.rows))
  {
    var lines := Lines(meta.content);
    var inserted: multiset<Row>, batch: seq<Row>, decoded := multiset{}, [], 0;
    ghost var stored: seq<Row> := [];
    for i := 0 to |lines|
      invariant decoded == i == |stored| && StoredRows(lib, width, lines[..i]) == Some(stored)
      invariant inserted + multiset(batch) == multiset(stored)
    {
      var row := StoredRow(lib, width, lines[i]);
      StoredNext(lib, width, lines, i);
      if row.None? { return Err(ROW_NOT_DECODED); }
      batch, decoded := batch + [row.value], decoded + 1;
      stored := stored + [row.value];
      if |batch| >= batchRows {
        inserted, batch := inserted + multiset(batch), [];
      }
    }
    assert lines[..|lines|] == lines;
    inserted := inserted + multiset(batch);
    if decoded != meta.rows { return Err(CHUNK_ROW_COUNT_MISMATCH); }
    r := Ok(inserted);
  }

  lemma {:induction false} StoredAppend(lib: Library, width: nat, before: seq<Bytes>, after: seq<Bytes>)
    ensures var b, a := StoredRows(lib, width, before), StoredRows(lib, width, after);
            StoredRows(lib, width, before + after) == if b.None? || a.None? then None else Some(b.value + a.value)
  {
    if before == [] {
      assert before + after == after;
      assert StoredRows(lib, width, after).Some? ==> [] + StoredRows(lib, width, after).value == StoredRows(lib, width, after).value;
    } else {
      assert (before + after)[1..] == before[1..] + after;
      StoredAppend(lib, width, before[1..], after);
      var first, rest, a := StoredRow(lib, width, before[0]), StoredRows(lib, width, before[1..]), StoredRows(lib, width, after);
      if first.Some? && rest.Some? && a.Some? {
        assert [first.value] + (rest.value + a.value) == [first.value] + rest.value + a.value;
      }
    }
  }

  lemma StoredOne(lib: Library, width: nat, line: Bytes)
    ensures var row := StoredRow(lib, width, line);
            StoredRows(lib, width, [line]) == if row.None? then None else Some([row.value])
  {
    assert StoredRows(lib, width, [line][1..]) == Some([]);
    var row := StoredRow(lib, width, line);
    assert row.Some? ==> [row.value] + [] == [row.value];
  }

  lemma StoredPrefix(lib: Library, width: nat, lines: seq<Bytes>, i: nat)
    requires i <= |lines| && StoredRows(lib, width, lines[..i]).None?
    ensures StoredRows(lib, width, lines).None?
  {
    assert lines == lines[..i] + lines[i..];
    StoredAppend(lib, width, lines[..i], lines[i..]);
  }

  // One line more; if it cannot be decoded, neither can the file.
  lemma StoredNext(lib: Library, width: nat, lines: seq<Bytes>, i: nat)
    requires i < |lines| && StoredRows(lib, width, lines[..i]).Some?
    ensures var row := StoredRow(lib, width, lines[i]);
            && (row.None? ==> StoredRows(lib, width, lines).None?)
            && (row.Some? ==> StoredRows(lib, width, lines[..i + 1]) == Some(StoredRows(lib, width, lines[..i]).value + [row.value]))
  {
    assert lines[..i + 1] == lines[..i] + [lines[i]];
    StoredMore(lib, width, lines[..i], lines[i]);
    if StoredRow(lib, width, lines[i]).None? {
      StoredPrefix(lib, width, lines, i + 1);
    }
  }

  lemma StoredMore(lib: Library, width: nat, before: seq<Bytes>, line: Bytes)
    ensures var b, row := StoredRows(lib, width, before), StoredRow(lib, width, line);
            StoredRows(lib, width, before + [line]) == if b.None? || row.None? then None else Some(b.value + [row.value])
  {
    StoredOne(lib, width, line);
    StoredAppend(lib, width, before, [line]);
  }

  // --- What the source wrote is what the destination reads ---

  lemma {:induction false} FrameFirst(rows: seq<Row>)
    requires rows != []
    ensures Frame(rows) == rows[0] + [LF] + Frame(rows[1..])
  {
    var n := |rows| - 1;
    if n == 0 {
      assert Frame(rows[..0]) == [];
    } else {
      FrameFirst(rows[..n]);
      assert rows[..n][1..] == rows[1..][..n - 1];
      Regroup(rows[0], Frame(rows[1..n]), rows[n]);
    }
  }

  lemma Regroup(first: Row, middle: Bytes, last: Row)
    ensures first + [LF] + middle + last + [LF] == first + [LF] + (middle + last + [LF])
  {
  }

  predicate IsLine(row: Row) {
    OneLine(row) && row != [] && row[|row| - 1] == CLOSE
  }

  lemma {:induction false} FrameSplits(rows: seq<Row>)
    requires forall i :: 0 <= i < |rows| ==> IsLine(rows[i])
    ensures Split(Frame(rows), LF) == rows + [[]]
  {
    if rows != [] {
      FrameFirst(rows);
      assert IsLine(rows[0]);
      SplitAt(rows[0], LF, Frame(rows[1..]));
      FrameSplits(rows[1..]);
      assert rows == [rows[0]] + rows[1..];
    }
  }

  // Joining lines and splitting and stripping them again gives the same lines.
  lemma LinesOfFrame(rows: seq<Row>)
    requires forall i :: 0 <= i < |rows| ==> IsLine(rows[i])
    ensures Lines(Frame(rows)) == rows
  {
    FrameSplits(rows);
    EndedRows(rows);
    StrippedRows(rows);
  }

  lemma EndedRows(rows: seq<Row>)
    ensures Ended(rows + [[]]) == rows
  {
    assert (rows + [[]])[..|rows|] == rows;
  }

  lemma StrippedRows(rows: seq<Row>)
    requires forall i :: 0 <= i < |rows| ==> IsLine(rows[i])
    ensures StripAll(rows) == rows
  {
    assert forall i :: 0 <= i < |rows| ==> IsLine(rows[i]) && Stripped(rows[i]) == rows[i];
  }

  // The row is the encoding of supported values of the table's width.
  ghost predicate Genuine(lib: Library, width: nat, row: Row) {
    exists values :: IsRowOf(lib, width, row, values)
  }

  predicate IsRowOf(lib: Library, width: nat, row: Row, values: Values) {
    AllSupported(lib, values) && |values| == width && EncodeRow(values) == Ok(row)
  }

  lemma GenuineRow(lib: Library, width: nat, row: Row)
    requires ReadsBack(lib) && Genuine(lib, width, row)
    ensures IsLine(row) && StoredRow(lib, width, row) == Some(row)
  {
    var values :| IsRowOf(lib, width, row, values);
    RoundTrip(lib, values);
    RowOnOneLine(lib, values);
  }

  lemma {:induction false} GenuineRows(lib: Library, width: nat, rows: seq<Row>)
    requires ReadsBack(lib) && forall i :: 0 <= i < |rows| ==> Genuine(lib, width, rows[i])
    ensures forall i :: 0 <= i < |rows| ==> IsLine(rows[i])
    ensures StoredRows(lib, width, rows) == Some(rows)
  {
    if rows != [] {
      GenuineRow(lib, width, rows[0]);
      GenuineRows(lib, width, rows[1..]);
      assert forall i :: 0 < i < |rows| ==> rows[i] == rows[1..][i - 1];
      assert rows == [rows[0]] + rows[1..];
    }
  }

  // A chunk file is read back as exactly the rows that were written to it.
  lemma ChunkRoundTrip(lib: Library, width: nat, sequence: nat, rows: seq<Row>)
    requires ReadsBack(lib) && forall i :: 0 <= i < |rows| ==> Genuine(lib, width, rows[i])
    ensures ReadChunk(lib, width, MetaOf(sequence, rows)) == Chunk(rows, true, |rows|)
  {
    GenuineRows(lib, width, rows);
    LinesOfFrame(rows);
  }

  // --- End to end ---

  // The run as the destination sees it, from what the source declared and wrote.
  function Received(lib: Library, width: nat, createdAt: int, d: Declared): Manifest {
    Manifest(createdAt, d.rowCount, seq(|d.chunks|, i requires 0 <= i < |d.chunks| => ReadChunk(lib, width, d.chunks[i])),
             d.verification)
  }

  lemma {:induction false} ContentArrives(chunks: seq<Chunk>, split: seq<seq<Row>>)
    requires |chunks| == |split| && forall i :: 0 <= i < |split| ==> chunks[i].rows == split[i]
    ensures PromotionSafety.AllRows(chunks) == multiset(Flatten(split))
    ensures PromotionCompletion.RowTotal(chunks) == |Flatten(split)|
  {
    if split != [] {
      var n := |split| - 1;
      ContentArrives(chunks[..n], split[..n]);
    }
  }

  // Every table whose values are supported arrives: the run is accepted, its chunks decode to the
  // source's rows, and its digest is the one its manifest declares, in whatever order it is read.
  lemma SourceRunIsHonest(c: Config, lib: Library, hs: Hashes, t: Thresholds, width: nat, createdAt: int,
                          rows: seq<Row>, split: seq<seq<Row>>)
    requires ReadsBack(lib) && forall i :: 0 <= i < |rows| ==> Genuine(lib, width, rows[i])
    requires GreedySplit(t, rows, split)
    requires forall table :: c.summarize(table) == ContentSummary(hs, table)
    ensures var m := Received(lib, width, createdAt, Declared(|rows|, MetasOf(split), Summarize(hs, rows)));
            && Validated(m) && PromotionCompletion.Honest(c, m)
            && PromotionSafety.AllRows(m.chunks) == multiset(rows)
  {
    var d := Declared(|rows|, MetasOf(split), Summarize(hs, rows));
    ChunksArrive(lib, width, createdAt, d, split, rows);
    ContentArrives(Received(lib, width, createdAt, d).chunks, split);
    AnyReadOrder(hs, rows);
  }

  lemma ChunksArrive(lib: Library, width: nat, createdAt: int, d: Declared, split: seq<seq<Row>>, rows: seq<Row>)
    requires ReadsBack(lib) && forall i :: 0 <= i < |rows| ==> Genuine(lib, width, rows[i])
    requires d.chunks == MetasOf(split) && Flatten(split) == rows
    ensures var chunks := Received(lib, width, createdAt, d).chunks;
            |chunks| == |split| && forall i :: 0 <= i < |split| ==> chunks[i] == Chunk(split[i], true, |split[i]|)
  {
    forall i | 0 <= i < |split|
      ensures ReadChunk(lib, width, d.chunks[i]) == Chunk(split[i], true, |split[i]|)
    {
      ChunkArrives(lib, width, split, rows, i);
    }
  }

  lemma ChunkArrives(lib: Library, width: nat, split: seq<seq<Row>>, rows: seq<Row>, i: nat)
    requires ReadsBack(lib) && (forall k :: 0 <= k < |rows| ==> Genuine(lib, width, rows[k])) && Flatten(split) == rows && i < |split|
    ensures ReadChunk(lib, width, MetasOf(split)[i]) == Chunk(split[i], true, |split[i]|)
  {
    ChunkOfGenuine(lib, width, rows, split, i);
    ChunkRoundTrip(lib, width, i + 1, split[i]);
  }

  lemma ChunkOfGenuine(lib: Library, width: nat, rows: seq<Row>, split: seq<seq<Row>>, i: nat)
    requires i < |split| && Flatten(split) == rows && forall k :: 0 <= k < |rows| ==> Genuine(lib, width, rows[k])
    ensures forall j :: 0 <= j < |split[i]| ==> Genuine(lib, width, split[i][j])
  {
    forall j | 0 <= j < |split[i]|
      ensures Genuine(lib, width, split[i][j])
    {
      FlattenHas(split, i, j);
    }
  }

  // In every behaviour of the destination, whatever is interrupted and retried: such a run is never
  // rejected as a mismatch, and once it is past import its staging table has exactly the source's
  // rows, which give the manifest's digest in every order.
  lemma NoFalseMismatch(c: Config, lib: Library, hs: Hashes, t: Thresholds, width: nat, createdAt: int,
                        rows: seq<Row>, split: seq<seq<Row>>, states: seq<State>, steps: seq<Step>, k: nat, r: RunId)
    requires ReadsBack(lib) && forall i :: 0 <= i < |rows| ==> Genuine(lib, width, rows[i])
    requires GreedySplit(t, rows, split)
    requires forall table :: c.summarize(table) == ContentSummary(hs, table)
    requires r in c.manifests
    requires c.manifests[r] == Received(lib, width, createdAt, Declared(|rows|, MetasOf(split), Summarize(hs, rows)))
    requires Behaviour(c, states, steps) && k < |states| && r in states[k].runs
    ensures var s, status := states[k], states[k].runs[r].status;
            && status != MISMATCH
            && (PromotionSafety.PastImport(status) && Staging(r) in s.catalog ==>
                  && s.catalog[Staging(r)].BaseTable? && s.catalog[Staging(r)].rows == multiset(rows)
                  && forall order :: multiset(order) == s.catalog[Staging(r)].rows ==>
                       Summarize(hs, order) == c.manifests[r].summary)
  {
    SourceRunIsHonest(c, lib, hs, t, width, createdAt, rows, split);
    PromotionTheorems.FinalStatusRecorded(c, states, steps, k);
    PromotionTheorems.ChunksTakeEffectOnce(c, states, steps, k, r);
    forall order | multiset(order) == multiset(rows)
      ensures Summarize(hs, order) == Summarize(hs, rows)
    {
      SummaryIgnoresOrder(hs, order, rows);
    }
  }
}
