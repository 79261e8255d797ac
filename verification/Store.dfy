/**
  The telemetry store (src/airgap_sync/monitor/store.py): reports of the sources are stored once
  although receipts expire, and what they say about runs is merged in any order of arrival.
 */
module Store {
  import opened Wrappers

  type Digest = nat
  type Node = nat
  type Name = nat
  type Field = nat

  datatype Config = Config(historyDays: nat, dedupDays: nat, futureSeconds: nat, batch: nat)

  // In seconds.
  function History(c: Config): nat {
    86400 * c.historyDays
  }

  function Dedup(c: Config): nat {
    86400 * c.dedupDays
  }

  // What the configuration is checked for.
  predicate Accepted(c: Config) {
    30 <= c.historyDays < c.dedupDays && c.futureSeconds <= 3600 && 1 <= c.batch
  }

  // --- What reports say about a run ---

  datatype Status = GENERATING | SNAPSHOT_READY | UPLOADING | FINALIZING | FAILED | DISK_PRESSURE | DELIVERED

  function Rank(s: Status): nat {
    match s
    case GENERATING => 0
    case SNAPSHOT_READY => 1
    case UPLOADING => 2
    case FINALIZING => 3
    case FAILED | DISK_PRESSURE => 4
    case DELIVERED => 5
  }

  // Fields that are null are left out.
  datatype Fact = Fact(status: Status, fields: map<Field, nat>)

  datatype Conflict = OnField(field: Field) | OnStatus | StatusRegression

  datatype Observation = Observation(captured: int, received: int, fact: Fact)

  datatype RunRow = RunRow(lastCapture: int, lastReceived: int, fact: Fact, conflicts: set<Conflict>)

  function Max(a: int, b: int): int {
    if a < b then b else a
  }

  function FirstRow(o: Observation): RunRow {
    RunRow(o.captured, o.received, o.fact, {})
  }

  // A field keeps its first value; the status follows newer reports unless it would go back.
  function Merged(row: RunRow, o: Observation): RunRow {
    var newer := o.captured > row.lastCapture;
    var differs := o.fact.status != row.fact.status;
    var forward := Rank(o.fact.status) >= Rank(row.fact.status);
    RunRow(
      Max(row.lastCapture, o.captured), Max(row.lastReceived, o.received),
      Fact(if newer && forward then o.fact.status else row.fact.status, o.fact.fields + row.fact.fields),
      row.conflicts + FieldConflicts(row.fact.fields, o.fact.fields)
      + (if differs && o.captured == row.lastCapture then {OnStatus} else {})
      + (if differs && newer && !forward then {StatusRegression} else {}))
  }

  function FieldConflicts(prior: map<Field, nat>, fields: map<Field, nat>): set<Conflict> {
    set f | f in fields && f in prior && fields[f] != prior[f] :: OnField(f)
  }

  method MergeRun(row: RunRow, o: Observation) returns (r: RunRow)
    ensures r == Merged(row, o)
  {
    var fields, conflicts := MergeFields(row.fact.fields, o.fact.fields, row.conflicts);
    var status := row.fact.status;
    if status != o.fact.status {
      if o.captured == row.lastCapture {
        conflicts := conflicts + {OnStatus};
      } else if o.captured > row.lastCapture {
        if Rank(o.fact.status) >= Rank(status) {
          status := o.fact.status;
        } else {
          conflicts := conflicts + {StatusRegression};
        }
      }
    }
    r := RunRow(Max(row.lastCapture, o.captured), Max(row.lastReceived, o.received), Fact(status, fields), conflicts);
  }

  method MergeFields(prior: map<Field, nat>, reported: map<Field, nat>, known: set<Conflict>)
      returns (fields: map<Field, nat>, conflicts: set<Conflict>)
    ensures fields == reported + prior && conflicts == known + FieldConflicts(prior, reported)
  {
    fields, conflicts := prior, known;
    var rest := reported.Keys;
    while rest != {}
      invariant rest <= reported.Keys
      invariant fields == (map f | f in reported && f !in rest :: reported[f]) + prior
      invariant conflicts == known + set f | f in reported && f !in rest && f in prior && reported[f] != prior[f] :: OnField(f)
      decreases rest
    {
      var f :| f in rest;
      var value := reported[f];
      if f !in fields {
        fields := fields[f := value];
      } else if fields[f] != value {
        conflicts := conflicts + {OnField(f)};
      }
      rest := rest - {f};
    }
  }

  // Whatever is reported, the status never goes back, no field changes and no conflict is dropped.
  lemma MergeIsMonotone(row: RunRow, o: Observation)
    ensures var r := Merged(row, o);
            && Rank(row.fact.status) <= Rank(r.fact.status)
            && (forall f :: f in row.fact.fields ==> f in r.fact.fields && r.fact.fields[f] == row.fact.fields[f])
            && row.conflicts <= r.conflicts
            && row.lastCapture <= r.lastCapture && o.captured <= r.lastCapture
  {
  }

  function Fold(reports: seq<Observation>): RunRow
    requires reports != []
  {
    if |reports| == 1 then FirstRow(reports[0])
    else Merged(Fold(reports[..|reports| - 1]), reports[|reports| - 1])
  }

  // Reports that agree: on every field, on the status at one time, and on its progress over time.
  predicate Agree(a: Observation, b: Observation) {
    && (forall f :: f in a.fact.fields && f in b.fact.fields ==> a.fact.fields[f] == b.fact.fields[f])
    && (a.captured == b.captured ==> a.fact.status == b.fact.status)
    && (a.captured < b.captured ==> Rank(a.fact.status) <= Rank(b.fact.status))
    && (b.captured < a.captured ==> Rank(b.fact.status) <= Rank(a.fact.status))
  }

  predicate Coherent(reports: seq<Observation>) {
    forall a, b :: a in reports && b in reports ==> Agree(a, b)
  }

  // The row says what the reports say together.
  ghost predicate Says(row: RunRow, reports: seq<Observation>) {
    && row.conflicts == {}
    && (exists o :: o in reports && o.captured == row.lastCapture && o.fact.status == row.fact.status)
    && (exists o :: o in reports && o.received == row.lastReceived)
    && (forall o :: o in reports ==> o.captured <= row.lastCapture && o.received <= row.lastReceived)
    && (forall o, f :: o in reports && f in o.fact.fields ==> f in row.fact.fields && row.fact.fields[f] == o.fact.fields[f])
    && (forall f :: f in row.fact.fields ==> exists o :: o in reports && f in o.fact.fields)
  }

  lemma SaysMerged(row: RunRow, reports: seq<Observation>, o: Observation)
    requires Says(row, reports) && Coherent(reports + [o])
    ensures Says(Merged(row, o), reports + [o])
  {
    var latest :| latest in reports && latest.captured == row.lastCapture && latest.fact.status == row.fact.status;
    assert latest in reports + [o] && o in reports + [o];
    assert Agree(latest, o);
    forall f | f in o.fact.fields && f in row.fact.fields
      ensures o.fact.fields[f] == row.fact.fields[f]
    {
      var p :| p in reports && f in p.fact.fields;
      assert p in reports + [o];
      assert Agree(p, o);
    }
    assert FieldConflicts(row.fact.fields, o.fact.fields) == {};
  }

  lemma {:induction false} FoldSays(reports: seq<Observation>)
    requires reports != [] && Coherent(reports)
    ensures Says(Fold(reports), reports)
  {
    if |reports| > 1 {
      var n := |reports| - 1;
      assert reports == reports[..n] + [reports[n]];
      FoldSays(reports[..n]);
      SaysMerged(Fold(reports[..n]), reports[..n], reports[n]);
    } else {
      assert reports[0] in reports;
    }
  }

  lemma SaysOne(a: RunRow, b: RunRow, reports: seq<Observation>)
    requires Coherent(reports) && Says(a, reports) && Says(b, reports)
    ensures a == b
  {
    var x :| x in reports && x.captured == a.lastCapture && x.fact.status == a.fact.status;
    var y :| y in reports && y.captured == b.lastCapture && y.fact.status == b.fact.status;
    assert Agree(x, y);
    assert a.fact.fields.Keys == b.fact.fields.Keys;
    forall f | f in a.fact.fields
      ensures a.fact.fields[f] == b.fact.fields[f]
    {
      var o :| o in reports && f in o.fact.fields;
    }
    assert a.fact.fields == b.fact.fields;
  }

  // Reports that agree give the same row, without conflicts, however they are ordered and repeated.
  lemma ArrivalOrderDoesNotMatter(a: seq<Observation>, b: seq<Observation>)
    requires a != [] && b != [] && Coherent(a) && forall o :: o in a <==> o in b
    ensures Fold(a) == Fold(b) && Fold(a).conflicts == {}
  {
    FoldSays(a);
    FoldSays(b);
    assert Says(Fold(b), a);
    SaysOne(Fold(a), Fold(b), a);
  }

  // --- The store ---

  type RunKey = nat

  datatype RunFact = RunFact(run: RunKey, fact: Fact)

  // What a report says. Its digest determines it: SHA-256 is taken to have no collisions.
  datatype Report = Report(node: Node, captured: int, facts: seq<RunFact>)

  datatype Receipt = Receipt(digest: Digest, received: int)

  datatype Ingested = OUTSIDE_WINDOW | CONFLICT | DUPLICATE | STORED

  // The order of samples of one node.
  predicate Later(describe: Digest -> Report, a: Digest, b: Digest) {
    || describe(a).captured > describe(b).captured
    || (describe(a).captured == describe(b).captured && a >= b)
  }

  // The receipts, the samples and the latest sample of every node. stored are the digests of all
  // reports that were ever stored, and clock is the latest time that was seen.
  datatype Book = Book(stored: set<Digest>, contents: map<Digest, int>, samples: map<Digest, int>, latest: map<Node, Digest>, clock: int)

  // Every sample has its receipt; and a digest without a receipt is too old to be accepted.
  ghost predicate Receipts(c: Config, describe: Digest -> Report, b: Book) {
    && (forall d :: d in b.contents ==>
          d in b.stored && b.contents[d] <= b.clock && describe(d).captured <= b.contents[d] + c.futureSeconds)
    && (forall d :: d in b.samples ==> d in b.contents && b.contents[d] == b.samples[d])
    && (forall d :: d in b.stored ==> d in b.contents || describe(d).captured < b.clock - History(c))
  }

  // A node's latest sample is the latest of all that were ever stored, and it is still there.
  ghost predicate Newest(describe: Digest -> Report, b: Book) {
    && (forall d :: d in b.stored ==> describe(d).node in b.latest && Later(describe, b.latest[describe(d).node], d))
    && (forall n :: n in b.latest ==> b.latest[n] in b.samples && describe(b.latest[n]).node == n)
  }

  ghost predicate Correct(c: Config, describe: Digest -> Report, book: Book) {
    Accepted(c) && forall b :: b == book ==> Receipts(c, describe, b) && Newest(describe, b)
  }

  predicate InWindow(c: Config, captured: int, now: int) {
    now - History(c) <= captured <= now + c.futureSeconds
  }

  function Added(describe: Digest -> Report, b: Book, d: Digest): Book {
    var node := describe(d).node;
    Book(b.stored + {d}, b.contents[d := b.clock], b.samples[d := b.clock],
         if node !in b.latest || !Later(describe, b.latest[node], d) then b.latest[node := d] else b.latest, b.clock)
  }

  // A report that is accepted and has no receipt was never stored before.
  lemma NeverStoredBefore(c: Config, describe: Digest -> Report, b: Book, d: Digest)
    requires Correct(c, describe, b) && InWindow(c, describe(d).captured, b.clock) && d !in b.contents
    ensures d !in b.stored && Correct(c, describe, Added(describe, b, d))
  {
    assert Receipts(c, describe, b) && Newest(describe, b);
    ReceiptAdded(c, describe, b, d);
    NewestAdded(c, describe, b, d);
  }

  lemma ReceiptAdded(c: Config, describe: Digest -> Report, b: Book, d: Digest)
    requires Receipts(c, describe, b) && describe(d).captured <= b.clock + c.futureSeconds
    ensures Receipts(c, describe, Added(describe, b, d))
  {
  }

  lemma NewestAdded(c: Config, describe: Digest -> Report, b: Book, d: Digest)
    requires Newest(describe, b)
    ensures Newest(describe, Added(describe, b, d))
  {
  }

  lemma TimePasses(c: Config, describe: Digest -> Report, b: Book, now: int)
    requires Correct(c, describe, b) && b.clock <= now
    ensures Correct(c, describe, b.(clock := now))
  {
    assert Receipts(c, describe, b) && Newest(describe, b);
    assert Receipts(c, describe, b.(clock := now)) && Newest(describe, b.(clock := now));
  }

  // When the receipt of a report expires, the report is no longer accepted.
  lemma ReceiptOutlivesWindow(c: Config, captured: int, received: int, now: int)
    requires captured <= received + c.futureSeconds && received < now - Dedup(c)
    requires History(c) + c.futureSeconds <= Dedup(c)
    ensures captured < now - History(c)
  {
  }

  lemma PruningKeepsOrder(c: Config, describe: Digest -> Report, b: Book, samples: map<Digest, int>, contents: map<Digest, int>)
    requires Correct(c, describe, b)
    requires Pruned(b.samples, samples, b.clock - History(c), c.batch, b.latest.Values)
    requires Pruned(b.contents, contents, b.clock - Dedup(c), c.batch, samples.Keys)
    ensures Correct(c, describe, b.(samples := samples, contents := contents))
  {
    assert Receipts(c, describe, b) && Newest(describe, b);
    assert Pruned(b.samples, samples, b.clock - History(c), c.batch, b.latest.Values);
    assert Pruned(b.contents, contents, b.clock - Dedup(c), c.batch, samples.Keys);
    var after := b.(samples := samples, contents := contents);
    forall d | d in b.stored && d !in contents
      ensures describe(d).captured < b.clock - History(c)
    {
      if d in b.contents {
        ReceiptOutlivesWindow(c, describe(d).captured, b.contents[d], b.clock);
      }
    }
    assert Receipts(c, describe, after);
    NewestKept(c, describe, b, samples, contents);
  }

  lemma NewestKept(c: Config, describe: Digest -> Report, b: Book, samples: map<Digest, int>, contents: map<Digest, int>)
    requires Newest(describe, b) && Pruned(b.samples, samples, b.clock - History(c), c.batch, b.latest.Values)
    ensures Newest(describe, b.(samples := samples, contents := contents))
  {
  }

  class TelemetryStore {
    const config: Config
    const describe: Digest -> Report
    var transfers: map<Name, Receipt>
    var contents: map<Digest, int>
    var samples: map<Digest, int>
    var latest: map<Node, Digest>
    var runs: map<RunKey, RunRow>
    ghost var stored: set<Digest>
    ghost var clock: int

    ghost function Now(): Book
      reads this
    {
      Book(stored, contents, samples, latest, clock)
    }

    ghost predicate Valid()
      reads this
    {
      Correct(config, describe, Now())
    }

    constructor (config: Config, describe: Digest -> Report)
      requires Accepted(config)
      ensures Valid() && stored == {} && this.config == config && this.describe == describe
    {
      this.config, this.describe := config, describe;
      transfers, contents, samples, latest, runs := map[], map[], map[], map[], map[];
      stored, clock := {}, 0;
    }

    ghost method Advance(now: int)
      requires Valid() && clock <= now
      modifies this`clock
      ensures Valid() && Now() == old(Now()).(clock := now)
    {
      TimePasses(config, describe, Now(), now);
      clock := now;
    }

    // A report is stored at most once, ever: what is stored was never stored before.
    method Ingest(name: Name, digest: Digest, now: int) returns (r: Ingested)
      requires Valid() && clock <= now
      modifies this
      ensures Valid() && clock == now
      ensures r == if !InWindow(config, describe(digest).captured, now) then OUTSIDE_WINDOW
                   else if name in old(transfers) && old(transfers)[name].digest != digest then CONFLICT
                   else if digest in old(contents) then DUPLICATE else STORED
      ensures r == STORED ==> digest !in old(stored)
      ensures r == STORED ==> Now() == Added(describe, old(Now()).(clock := now), digest)
      ensures r == STORED ==> runs == MergedFacts(old(runs), describe(digest).captured, now, describe(digest).facts)
      ensures r != STORED ==> Now() == old(Now()).(clock := now) && runs == old(runs)
      ensures transfers == if r in {DUPLICATE, STORED} && name !in old(transfers)
                           then old(transfers)[name := Receipt(digest, now)] else old(transfers)
    {
      Advance(now);
      if !InWindow(config, describe(digest).captured, now) { return OUTSIDE_WINDOW; }
      if name in transfers && transfers[name].digest != digest { return CONFLICT; }
      if name !in transfers {
        transfers := transfers[name := Receipt(digest, now)];
      }
      if digest in contents { return DUPLICATE; }
      StoreReport(digest, now);
      MergeFacts(describe(digest), now);
      r := STORED;
    }

    method StoreReport(digest: Digest, now: int)
      requires Valid() && clock == now && InWindow(config, describe(digest).captured, now) && digest !in contents
      modifies this`contents, this`samples, this`latest, this`stored
      ensures Valid() && digest !in old(stored) && Now() == Added(describe, old(Now()), digest)
    {
      NeverStoredBefore(config, describe, Now(), digest);
      contents := contents[digest := now];
      samples := samples[digest := now];
      var node := describe(digest).node;
      if node !in latest || !Later(describe, latest[node], digest) {
        latest := latest[node := digest];
      }
      stored := stored + {digest};
    }

    method MergeFacts(report: Report, now: int)
      modifies this`runs
      ensures runs == MergedFacts(old(runs), report.captured, now, report.facts)
    {
      for i := 0 to |report.facts|
        invariant runs == MergedFacts(old(runs), report.captured, now, report.facts[..i])
      {
        var run := report.facts[i].run;
        var o := Observation(report.captured, now, report.facts[i].fact);
        assert report.facts[..i + 1][..i] == report.facts[..i];
        if run in runs {
          var row := MergeRun(runs[run], o);
          runs := runs[run := row];
        } else {
          runs := runs[run := FirstRow(o)];
        }
      }
      assert report.facts[..|report.facts|] == report.facts;
    }

    // --- Retention ---

    // Old samples go, but not a node's latest; a receipt goes when it is older and no sample needs it;
    // a run goes when nothing was received about it for as long as samples are kept.
    method Retention(now: int)
      requires Valid() && clock <= now
      modifies this
      ensures Valid() && clock == now && stored == old(stored) && latest == old(latest)
      ensures BookPruned(config, old(Now()).(clock := now), Now())
      ensures RestPruned(config, now, Rest(old(transfers), old(runs)), Rest(transfers, runs))
    {
      Advance(now);
      PruneReports(now);
      PruneRest(now);
    }

    method PruneReports(now: int)
      requires Valid() && clock == now
      modifies this`samples, this`contents
      ensures Valid() && BookPruned(config, old(Now()), Now())
    {
      var left, receipts := PrunedBook(now);
      samples, contents := left, receipts;
    }

    method PrunedBook(now: int) returns (left: map<Digest, int>, receipts: map<Digest, int>)
      requires Valid() && clock == now
      ensures BookPruned(config, Now(), Now().(samples := left, contents := receipts))
      ensures Correct(config, describe, Now().(samples := left, contents := receipts))
    {
      left := Prune(samples, now - History(config), config.batch, latest.Values);
      receipts := Prune(contents, now - Dedup(config), config.batch, left.Keys);
      PruningKeepsOrder(config, describe, Now(), left, receipts);
      assert IsBookPruned(config, Now(), Now().(samples := left, contents := receipts));
    }

    method PruneRest(now: int)
      requires Valid()
      modifies this`transfers, this`runs
      ensures Valid() && Now() == old(Now())
      ensures RestPruned(config, now, Rest(old(transfers), old(runs)), Rest(transfers, runs))
    {
      var names := PruneTransfers(transfers, now - Dedup(config), config.batch);
      var rows := PruneRuns(runs, now - History(config), config.batch);
      assert IsRestPruned(config, now, Rest(transfers, runs), Rest(names, rows));
      transfers, runs := names, rows;
    }
  }

  method PruneTransfers(transfers: map<Name, Receipt>, cutoff: int, limit: nat) returns (left: map<Name, Receipt>)
    ensures TransfersPruned(transfers, left, cutoff, limit)
  {
    var kept := Prune(ReceivedTimes(transfers), cutoff, limit, {});
    left := Kept(transfers, kept);
    TransferTimes(transfers, kept);
  }

  method PruneRuns(runs: map<RunKey, RunRow>, cutoff: int, limit: nat) returns (left: map<RunKey, RunRow>)
    ensures RunsPruned(runs, left, cutoff, limit)
  {
    var kept := Prune(LastReceived(runs), cutoff, limit, {});
    left := Kept(runs, kept);
    RunTimes(runs, kept);
  }

  function Kept<T>(rows: map<nat, T>, kept: map<nat, int>): (left: map<nat, T>)
    ensures forall k :: k in left ==> k in rows && left[k] == rows[k]
  {
    map k | k in rows && k in kept :: rows[k]
  }

  lemma TransferTimes(transfers: map<Name, Receipt>, kept: map<Name, int>)
    requires forall k :: k in kept ==> k in ReceivedTimes(transfers) && kept[k] == ReceivedTimes(transfers)[k]
    ensures ReceivedTimes(Kept(transfers, kept)) == kept
  {
  }

  lemma RunTimes(runs: map<RunKey, RunRow>, kept: map<RunKey, int>)
    requires forall k :: k in kept ==> k in LastReceived(runs) && kept[k] == LastReceived(runs)[k]
    ensures LastReceived(Kept(runs, kept)) == kept
  {
  }

  function ReceivedTimes(transfers: map<Name, Receipt>): map<Name, int> {
    map name | name in transfers :: transfers[name].received
  }

  function LastReceived(runs: map<RunKey, RunRow>): map<RunKey, int> {
    map k | k in runs :: runs[k].lastReceived
  }

  function MergedFacts(runs: map<RunKey, RunRow>, captured: int, received: int, facts: seq<RunFact>): map<RunKey, RunRow> {
    if facts == [] then runs
    else
      var last := facts[|facts| - 1];
      var before := MergedFacts(runs, captured, received, facts[..|facts| - 1]);
      var o := Observation(captured, received, last.fact);
      before[last.run := if last.run in before then Merged(before[last.run], o) else FirstRow(o)]
  }

  // At most limit entries from before the cutoff are removed, the oldest first, and none that is kept.
  ghost predicate Pruned(before: map<nat, int>, after: map<nat, int>, cutoff: int, limit: nat, kept: set<nat>) {
    && (forall k :: k in after ==> k in before && after[k] == before[k])
    && (forall k :: k in before && k !in after ==> before[k] < cutoff && k !in kept)
    && |before.Keys - after.Keys| <= limit
    && (forall k, m :: k in before && k !in after && m in after && m !in kept ==> before[k] <= before[m])
    && (|before.Keys - after.Keys| == limit || forall k :: k in after ==> cutoff <= after[k] || k in kept)
  }

  // A sample goes before its receipt, and not while it is a node's latest.
  ghost predicate BookPruned(c: Config, before: Book, after: Book) {
    forall b :: b == after ==> IsBookPruned(c, before, b)
  }

  ghost predicate IsBookPruned(c: Config, before: Book, after: Book) {
    && Pruned(before.samples, after.samples, before.clock - History(c), c.batch, before.latest.Values)
    && Pruned(before.contents, after.contents, before.clock - Dedup(c), c.batch, after.samples.Keys)
  }

  // What is left of the transfers and runs is as it was.
  ghost predicate TransfersPruned(before: map<Name, Receipt>, after: map<Name, Receipt>, cutoff: int, limit: nat) {
    && Pruned(ReceivedTimes(before), ReceivedTimes(after), cutoff, limit, {})
    && forall name :: name in after ==> name in before && after[name] == before[name]
  }

  ghost predicate RunsPruned(before: map<RunKey, RunRow>, after: map<RunKey, RunRow>, cutoff: int, limit: nat) {
    && Pruned(LastReceived(before), LastReceived(after), cutoff, limit, {})
    && forall k :: k in after ==> k in before && after[k] == before[k]
  }

  datatype Rest = Rest(transfers: map<Name, Receipt>, runs: map<RunKey, RunRow>)

  ghost predicate RestPruned(c: Config, now: int, before: Rest, after: Rest) {
    forall r :: r == after ==> IsRestPruned(c, now, before, r)
  }

  ghost predicate IsRestPruned(c: Config, now: int, before: Rest, after: Rest) {
    && TransfersPruned(before.transfers, after.transfers, now - Dedup(c), c.batch)
    && RunsPruned(before.runs, after.runs, now - History(c), c.batch)
  }

  // The same while it is being done: the entries in expired can still be removed.
  ghost predicate Pruning(entries: map<nat, int>, rest: map<nat, int>, cutoff: int, kept: set<nat>, removed: nat, expired: set<nat>) {
    && (forall k :: k in rest ==> k in entries && rest[k] == entries[k])
    && (forall k :: k in entries && k !in rest ==> entries[k] < cutoff && k !in kept)
    && (forall k :: k in expired <==> k in rest && rest[k] < cutoff && k !in kept)
    && |entries.Keys - rest.Keys| == removed
    && (forall k, m :: k in entries && k !in rest && m in rest && m !in kept ==> entries[k] <= entries[m])
  }

  lemma RemoveOldest(entries: map<nat, int>, rest: map<nat, int>, cutoff: int, kept: set<nat>, removed: nat, expired: set<nat>, k: nat)
    requires Pruning(entries, rest, cutoff, kept, removed, expired)
    requires k in expired && forall m :: m in expired ==> rest[k] <= rest[m]
    ensures Pruning(entries, rest - {k}, cutoff, kept, removed + 1, expired - {k})
  {
    OneMoreRemoved(entries, rest, k);
  }

  lemma OneMoreRemoved(entries: map<nat, int>, rest: map<nat, int>, k: nat)
    requires k in entries && k in rest
    ensures |entries.Keys - (rest - {k}).Keys| == |entries.Keys - rest.Keys| + 1
  {
    assert entries.Keys - (rest - {k}).Keys == (entries.Keys - rest.Keys) + {k};
  }

  method Prune(entries: map<nat, int>, cutoff: int, limit: nat, kept: set<nat>) returns (rest: map<nat, int>)
    ensures Pruned(entries, rest, cutoff, limit, kept)
  {
    rest := entries;
    var removed := 0;
    var expired := set k | k in entries && entries[k] < cutoff && k !in kept;
    while removed < limit && expired != {}
      invariant Pruning(entries, rest, cutoff, kept, removed, expired) && removed <= limit
      decreases expired
    {
      var k := Oldest(rest, expired);
      RemoveOldest(entries, rest, cutoff, kept, removed, expired, k);
      rest, expired, removed := rest - {k}, expired - {k}, removed + 1;
    }
  }

  method Oldest(entries: map<nat, int>, among: set<nat>) returns (oldest: nat)
    requires among != {} && among <= entries.Keys
    ensures oldest in among && forall k :: k in among ==> entries[oldest] <= entries[k]
  {
    oldest :| oldest in among;
    var rest := among - {oldest};
    while rest != {}
      invariant oldest in among && rest <= among
      invariant forall k :: k in among && k !in rest ==> entries[oldest] <= entries[k]
      decreases rest
    {
      var k :| k in rest;
      if entries[k] < entries[oldest] {
        oldest := k;
      }
      rest := rest - {k};
    }
  }

}
