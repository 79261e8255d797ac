/**
  Splitting a scan into chunk files (src/airgap_sync/source/chunk_writer.py and scanner.py): a
  chunk is closed as soon as it reaches one of two thresholds.
 */
module Chunking {
  import opened Digest
  import Transport

  // --- Files of lines ---

  const LF: byte := 10
  const CR: byte := 13

  function Flatten<T>(parts: seq<seq<T>>): seq<T> {
    if parts == [] then [] else Flatten(parts[..|parts| - 1]) + parts[|parts| - 1]
  }

  // Every row is followed by a line feed.
  function Frame(rows: seq<Row>): seq<byte> {
    if rows == [] then [] else Frame(rows[..|rows| - 1]) + rows[|rows| - 1] + [LF]
  }

  // --- The greedy split ---

  datatype Thresholds = Thresholds(maxRows: nat, maxBytes: nat)

  predicate Reached(t: Thresholds, rows: seq<Row>) {
    |rows| >= t.maxRows || |Frame(rows)| >= t.maxBytes
  }

  // No proper, nonempty beginning of the rows reaches a threshold.
  predicate NotBefore(t: Thresholds, rows: seq<Row>) {
    forall n :: 0 < n < |rows| ==> !Reached(t, rows[..n])
  }

  // A closed chunk reaches a threshold with its last row and not before.
  predicate Full(t: Thresholds, rows: seq<Row>) {
    rows != [] && Reached(t, rows) && NotBefore(t, rows)
  }

  // A chunk that is not closed has not reached a threshold.
  predicate Open(t: Thresholds, rows: seq<Row>) {
    NotBefore(t, rows) && (rows != [] ==> !Reached(t, rows))
  }

  predicate AllFull(t: Thresholds, chunks: seq<seq<Row>>) {
    forall i :: 0 <= i < |chunks| ==> Full(t, chunks[i])
  }

  // What the rows are split into: only the last chunk may be closed before it reaches a threshold.
  predicate GreedySplit(t: Thresholds, rows: seq<Row>, chunks: seq<seq<Row>>) {
    Flatten(chunks) == rows && Chunks(t, chunks)
  }

  predicate Chunks(t: Thresholds, chunks: seq<seq<Row>>) {
    forall i :: 0 <= i < |chunks| ==>
      chunks[i] != [] && NotBefore(t, chunks[i]) && (Reached(t, chunks[i]) || i == |chunks| - 1)
  }

  lemma {:induction false} FlattenFirst<T>(parts: seq<seq<T>>)
    requires parts != []
    ensures Flatten(parts) == parts[0] + Flatten(parts[1..])
  {
    var n := |parts| - 1;
    if n == 0 {
      assert Flatten(parts[..0]) == [];
    } else {
      FlattenFirst(parts[..n]);
      assert parts[..n][1..] == parts[1..][..n - 1];
    }
  }

  // The rows determine their split.
  lemma {:induction false} SplitUnique(t: Thresholds, a: seq<seq<Row>>, b: seq<seq<Row>>)
    requires Flatten(a) == Flatten(b) && Chunks(t, a) && Chunks(t, b)
    ensures a == b
  {
    if a == [] || b == [] {
      if a != [] { FlattenFirst(a); }
      if b != [] { FlattenFirst(b); }
    } else {
      FlattenFirst(a);
      FlattenFirst(b);
      SameFirst(t, a, b);
      SplitUnique(t, a[1..], b[1..]);
    }
  }

  lemma SameFirst(t: Thresholds, a: seq<seq<Row>>, b: seq<seq<Row>>)
    requires a != [] && b != [] && Chunks(t, a) && Chunks(t, b)
    requires a[0] + Flatten(a[1..]) == b[0] + Flatten(b[1..])
    ensures a[0] == b[0] && Flatten(a[1..]) == Flatten(b[1..])
    ensures Chunks(t, a[1..]) && Chunks(t, b[1..])
  {
    var whole := a[0] + Flatten(a[1..]);
    FirstNotShorter(t, a, b);
    FirstNotShorter(t, b, a);
    assert a[0] == whole[..|a[0]|] && b[0] == whole[..|b[0]|];
    assert Flatten(a[1..]) == whole[|a[0]|..] && Flatten(b[1..]) == whole[|b[0]|..];
  }

  lemma FirstNotShorter(t: Thresholds, a: seq<seq<Row>>, b: seq<seq<Row>>)
    requires a != [] && b != [] && Chunks(t, a) && Chunks(t, b)
    requires a[0] + Flatten(a[1..]) == b[0] + Flatten(b[1..])
    ensures |a[0]| >= |b[0]|
  {
    var n := if |a[0]| < |b[0]| then |a[0]| else 0;
    assert (b[0] + Flatten(b[1..]))[..n] == b[0][..n];
    assert (a[0] + Flatten(a[1..]))[..n] == a[0][..n];
    assert |a| == 1 ==> a[0] + Flatten(a[1..]) == a[0];
  }

  // --- The chunk writer ---

  // What is known of a closed chunk. Its content is the content of its file before compression.
  datatype ChunkMeta = ChunkMeta(sequence: nat, file: seq<byte>, rows: nat, uncompressedBytes: nat, content: seq<byte>)

  class OpenChunk {
    const sequence: nat
    var rows: nat
    var uncompressedBytes: nat
    var content: seq<byte>

    ghost predicate Holds(written: seq<Row>)
      reads this
    {
      rows == |written| && content == Frame(written) && uncompressedBytes == |content|
    }

    constructor (sequence: nat)
      ensures this.sequence == sequence && Holds([])
    {
      this.sequence := sequence;
      rows, uncompressedBytes, content := 0, 0, [];
    }

    method WriteRow(encoded: Row, ghost before: seq<Row>)
      requires Holds(before)
      modifies this
      ensures Holds(before + [encoded])
    {
      var line := encoded + [LF];
      content := content + line;
      rows := rows + 1;
      uncompressedBytes := uncompressedBytes + |line|;
      assert (before + [encoded])[..|before|] == before;
      assert content == Frame(before) + encoded + [LF];
    }

    method Close(ghost written: seq<Row>) returns (meta: ChunkMeta)
      requires Holds(written)
      ensures meta == MetaOf(sequence, written)
    {
      meta := ChunkMeta(sequence, Transport.ChunkFileName(sequence), rows, uncompressedBytes, content);
    }
  }

  function MetaOf(sequence: nat, rows: seq<Row>): ChunkMeta {
    ChunkMeta(sequence, Transport.ChunkFileName(sequence), |rows|, |Frame(rows)|, Frame(rows))
  }

  function MetasOf(chunks: seq<seq<Row>>): seq<ChunkMeta> {
    seq(|chunks|, i requires 0 <= i < |chunks| => MetaOf(i + 1, chunks[i]))
  }

  lemma MetasAppend(chunks: seq<seq<Row>>, rows: seq<Row>)
    ensures MetasOf(chunks + [rows]) == MetasOf(chunks) + [MetaOf(|chunks| + 1, rows)]
  {
  }

  datatype WriterError = WRITE_AFTER_FINISH | WRITE_AFTER_ABORT | FINISH_AFTER_ABORT

  class ChunkWriter {
    const thresholds: Thresholds
    var chunks: seq<ChunkMeta>
    var current: OpenChunk?
    var finished: bool
    var aborted: bool
    ghost var closed: seq<seq<Row>>
    ghost var pending: seq<Row>

    // What was written is in the closed chunks and the open one, split as it should be.
    ghost predicate Valid()
      reads this, current
    {
      && AllFull(thresholds, closed) && Open(thresholds, pending)
      && chunks == MetasOf(closed)
      && (current == null <==> pending == [])
      && (current != null ==> current.sequence == |closed| + 1 && current.Holds(pending))
      && !finished && !aborted
    }

    ghost function Written(): seq<Row>
      reads this
    {
      Flatten(closed) + pending
    }

    constructor (thresholds: Thresholds)
      ensures Valid() && Written() == [] && fresh(this) && current == null && this.thresholds == thresholds
    {
      this.thresholds := thresholds;
      chunks, current, finished, aborted := [], null, false, false;
      closed, pending := [], [];
    }

    method WriteRow(encoded: Row) returns (error: set<WriterError>)
      requires finished || aborted || Valid()
      modifies this, current
      ensures old(!finished && !aborted) ==> error == {} && Valid() && Written() == old(Written()) + [encoded]
      ensures old(finished) ==> error == {WRITE_AFTER_FINISH}
      ensures old(aborted && !finished) ==> error == {WRITE_AFTER_ABORT}
      ensures old(finished || aborted) ==> chunks == old(chunks) && current == old(current)
      ensures finished == old(finished) && aborted == old(aborted)
      ensures current == old(current) || current == null || fresh(current)
    {
      if finished { return {WRITE_AFTER_FINISH}; }
      if aborted { return {WRITE_AFTER_ABORT}; }
      error := {};
      if current == null {
        current := new OpenChunk(|chunks| + 1);
      }
      current.WriteRow(encoded, pending);
      Grows(thresholds, pending, encoded);
      pending := pending + [encoded];
      if current.rows >= thresholds.maxRows || current.uncompressedBytes >= thresholds.maxBytes {
        CloseCurrentChunk();
      }
    }

    method CloseCurrentChunk()
      requires current != null && current.sequence == |closed| + 1 && current.Holds(pending) && pending != []
      requires chunks == MetasOf(closed)
      modifies this`chunks, this`current, this`closed, this`pending
      ensures closed == old(closed) + [old(pending)] && pending == [] && current == null && chunks == MetasOf(closed)
      ensures Written() == old(Written())
    {
      var meta := current.Close(pending);
      current := null;
      MetasAppend(closed, pending);
      assert (closed + [pending])[..|closed|] == closed;
      chunks := chunks + [meta];
      closed, pending := closed + [pending], [];
    }

    // The chunks of a finished scan are the split of its rows, numbered from 1.
    method Finish() returns (r: seq<ChunkMeta>, error: set<WriterError>)
      requires aborted || Valid()
      modifies this
      ensures old(aborted) ==> error == {FINISH_AFTER_ABORT} && chunks == old(chunks)
      ensures old(!aborted) ==>
        && error == {} && finished && r == MetasOf(closed)
        && GreedySplit(thresholds, old(Written()), closed)
    {
      if aborted { return chunks, {FINISH_AFTER_ABORT}; }
      error := {};
      if current != null {
        CloseCurrentChunk();
        assert closed[..|closed| - 1] == old(closed);
      }
      finished := true;
      r := chunks;
    }

    // Closed chunks stay, the open one is dropped. Nothing happens after finish or abort.
    method Abort()
      modifies this
      ensures chunks == old(chunks) && finished == old(finished)
      ensures old(finished || aborted) ==> current == old(current) && aborted == old(aborted)
      ensures old(!finished && !aborted) ==> aborted && current == null
    {
      if aborted || finished { return; }
      aborted := true;
      current := null;
    }
  }

  lemma Grows(t: Thresholds, rows: seq<Row>, row: Row)
    requires Open(t, rows)
    ensures NotBefore(t, rows + [row])
  {
    forall n | 0 < n < |rows| + 1
      ensures !Reached(t, (rows + [row])[..n])
    {
      assert (rows + [row])[..n] == rows[..n];
      assert n == |rows| ==> rows[..n] == rows;
    }
  }
}
