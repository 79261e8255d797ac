/**
  Source cycles (src/airgap_sync/source/cycle.py and the cycle operations of state.py): all tables
  are delivered one after the other, and a cycle that was interrupted anywhere is resumed.
 */
module Cycles {
  import opened Wrappers

  type Table = nat

  datatype TableStatus = PENDING | RUNNING | FAILED | DELIVERED

  datatype CycleTable = CycleTable(table: Table, status: TableStatus, attempts: nat, lastRun: Option<nat>)

  datatype CycleStatus = CYCLE_RUNNING | RETRY_WAIT | COMPLETED | ABANDONED

  datatype Cycle = Cycle(status: CycleStatus, tables: seq<CycleTable>, nextAttempt: Option<int>)

  datatype RunStatus = GENERATING | UPLOADING | FINALIZING | SNAPSHOT_READY | RUN_DELIVERED | RUN_FAILED | DISK_PRESSURE

  datatype SyncRun = SyncRun(table: Table, status: RunStatus)

  predicate Active(status: RunStatus) {
    status in {GENERATING, UPLOADING, FINALIZING}
  }

  predicate IsActive(cycle: Cycle) {
    cycle.status in {CYCLE_RUNNING, RETRY_WAIT}
  }

  // Delivered tables first, then at most one that was started, then tables that are pending.
  predicate InOrder(tables: seq<CycleTable>) {
    forall i, j :: 0 <= i < j < |tables| ==> tables[i].status == DELIVERED || tables[j].status == PENDING
  }

  predicate AllDelivered(tables: seq<CycleTable>) {
    forall i :: 0 <= i < |tables| ==> tables[i].status == DELIVERED
  }

  predicate Distinct(tables: seq<CycleTable>) {
    forall i, j :: 0 <= i < j < |tables| ==> tables[i].table != tables[j].table
  }

  predicate CycleOk(cycle: Cycle) {
    && InOrder(cycle.tables) && Distinct(cycle.tables)
    && (cycle.status == COMPLETED ==> AllDelivered(cycle.tables))
    && (cycle.status == RETRY_WAIT ==>
          cycle.nextAttempt.Some? && exists i :: 0 <= i < |cycle.tables| && cycle.tables[i].status == FAILED)
    && (cycle.status == CYCLE_RUNNING ==> cycle.nextAttempt.None?)
  }

  lemma OneFailedTable(cycle: Cycle)
    requires CycleOk(cycle) && cycle.status == RETRY_WAIT
    ensures exists i :: 0 <= i < |cycle.tables| && cycle.tables[i].status == FAILED
              && forall j :: 0 <= j < |cycle.tables| && j != i ==> cycle.tables[j].status in {DELIVERED, PENDING}
  {
    var i :| 0 <= i < |cycle.tables| && cycle.tables[i].status == FAILED;
  }

  // What a statement does, or a sync of a table: a sync can fail, be refused before its run begins,
  // or leave its run active, because the process dies or because the failure could not be recorded.
  datatype Fate = WORKS | DIES | SYNC_FAILS | SYNC_REFUSED | SYNC_RAISES(left: RunStatus) | SYNC_DIES(left: RunStatus) | STOPS

  datatype Outcome = OK | DIED

  function First(fates: seq<Fate>): Fate {
    if fates == [] then WORKS else fates[0]
  }

  function Rest(fates: seq<Fate>): seq<Fate> {
    if fates == [] then [] else fates[1..]
  }

  class SourceState {
    var cycles: seq<Cycle>
    var runs: seq<SyncRun>
    var fates: seq<Fate>

    ghost predicate Valid()
      reads this
    {
      && (forall i :: 0 <= i < |cycles| ==> CycleOk(cycles[i]))
      && (forall i :: 0 <= i < |cycles| - 1 ==> !IsActive(cycles[i]))
    }

    // What is delivered, and what a finished cycle recorded, stays as it is.
    twostate predicate KeepsHistory()
      reads this
    {
      && |old(cycles)| <= |cycles|
      && forall i :: 0 <= i < |old(cycles)| ==>
           && |cycles[i].tables| == |old(cycles)[i].tables|
           && (!IsActive(old(cycles)[i]) ==> cycles[i] == old(cycles)[i])
           && forall t :: 0 <= t < |cycles[i].tables| ==>
                && cycles[i].tables[t].table == old(cycles)[i].tables[t].table
                && old(cycles)[i].tables[t].attempts <= cycles[i].tables[t].attempts
                && (old(cycles)[i].tables[t].status == DELIVERED ==> cycles[i].tables[t] == old(cycles)[i].tables[t])
    }

    constructor (fates: seq<Fate>)
      ensures Valid() && cycles == [] && runs == [] && this.fates == fates
    {
      cycles, runs := [], [];
      this.fates := fates;
    }

    method Turn() returns (fate: Fate)
      modifies this`fates
      ensures fate == First(old(fates)) && fates == Rest(old(fates))
      ensures RaisesIn(fates) || fate.SYNC_RAISES? ==> RaisesIn(old(fates))
    {
      if fates == [] { return WORKS; }
      assert forall i :: 0 <= i < |fates[1..]| ==> fates[1..][i] == fates[i + 1];
      fate, fates := fates[0], fates[1..];
    }

    function ActiveCycle(): (r: Option<nat>)
      reads this
      requires Valid()
      ensures r.Some? <==> exists i :: 0 <= i < |cycles| && IsActive(cycles[i])
      ensures r.Some? ==> r.value == |cycles| - 1 && IsActive(cycles[r.value])
    {
      if cycles != [] && IsActive(cycles[|cycles| - 1]) then Some(|cycles| - 1) else None
    }

    // --- Statements ---

    method CreateCycle(tables: seq<Table>) returns (o: Outcome)
      requires Valid() && ActiveCycle().None?
      requires forall i, j :: 0 <= i < j < |tables| ==> tables[i] != tables[j]
      modifies this
      ensures Valid() && KeepsHistory() && runs == old(runs)
      ensures o.DIED? ==> cycles == old(cycles)
      ensures o.OK? ==>
        cycles == old(cycles) + [Cycle(CYCLE_RUNNING, NewRows(tables), None)]
      ensures RaisesIn(fates) ==> RaisesIn(old(fates))
      ensures fates == Rest(old(fates)) && (o.OK? <==> First(old(fates)) == WORKS)
    {
      var fate := Turn();
      if fate != WORKS { return DIED; }
      cycles := cycles + [Cycle(CYCLE_RUNNING, NewRows(tables), None)];
      o := OK;
    }

    // The row of one table, and the cycle's status, in one transaction.
    ghost predicate CanUpdate(c: nat, t: nat, row: CycleTable, status: CycleStatus, next: Option<int>)
      reads this
    {
      && Valid() && c == |cycles| - 1 && IsActive(cycles[c]) && t < |cycles[c].tables|
      && row.table == cycles[c].tables[t].table && cycles[c].tables[t].attempts <= row.attempts
      && cycles[c].tables[t].status != DELIVERED && row.status != PENDING
      && (forall i :: 0 <= i < t ==> cycles[c].tables[i].status == DELIVERED)
      && (status == RETRY_WAIT ==> next.Some? && row.status == FAILED)
      && (status == CYCLE_RUNNING ==> next.None?)
      && status in {CYCLE_RUNNING, RETRY_WAIT}
    }

    method Update(c: nat, t: nat, row: CycleTable, status: CycleStatus, next: Option<int>)
      requires CanUpdate(c, t, row, status, next)
      modifies this`cycles
      ensures Valid() && KeepsHistory()
      ensures cycles == old(cycles)[c := Cycle(status, old(cycles)[c].tables[t := row], next)]
    {
      var updated := Cycle(status, cycles[c].tables[t := row], next);
      UpdatedOk(cycles[c], t, row, updated);
      cycles := cycles[c := updated];
    }

    static lemma UpdatedOk(before: Cycle, t: nat, row: CycleTable, after: Cycle)
      requires CycleOk(before) && t < |before.tables| && after.tables == before.tables[t := row]
      requires row.table == before.tables[t].table && before.tables[t].status != DELIVERED && row.status != PENDING
      requires forall i :: 0 <= i < t ==> before.tables[i].status == DELIVERED
      requires IsActive(after) && (after.status == RETRY_WAIT ==> after.nextAttempt.Some? && row.status == FAILED)
      requires after.status == CYCLE_RUNNING ==> after.nextAttempt.None?
      ensures CycleOk(after)
    {
      assert after.tables[t] == row;
    }

    // The tables before it are delivered, it is not.
    ghost predicate IsNext(c: nat, t: nat)
      reads this
    {
      && Valid() && c == |cycles| - 1 && IsActive(cycles[c]) && t < |cycles[c].tables|
      && cycles[c].tables[t].status != DELIVERED
      && forall i :: 0 <= i < t ==> cycles[c].tables[i].status == DELIVERED
    }

    method StartCycleTable(c: nat, t: nat) returns (o: Outcome)
      requires IsNext(c, t)
      modifies this
      ensures Valid() && KeepsHistory() && runs == old(runs)
      ensures o.DIED? ==> cycles == old(cycles)
      ensures o.OK? ==> IsNext(c, t)
      ensures o.OK? ==>
        var row := old(cycles)[c].tables[t];
        cycles == old(cycles)[c := Cycle(CYCLE_RUNNING, old(cycles)[c].tables[t := row.(status := RUNNING, attempts := row.attempts + 1)], None)]
      ensures RaisesIn(fates) ==> RaisesIn(old(fates))
      ensures fates == Rest(old(fates)) && (o.OK? <==> First(old(fates)) == WORKS)
    {
      var fate := Turn();
      if fate != WORKS { return DIED; }
      var row := cycles[c].tables[t];
      Update(c, t, row.(status := RUNNING, attempts := row.attempts + 1), CYCLE_RUNNING, None);
      o := OK;
    }

    method DeliverCycleTable(c: nat, t: nat, run: nat) returns (o: Outcome)
      requires IsNext(c, t) && cycles[c].status == CYCLE_RUNNING
      modifies this
      ensures Valid() && KeepsHistory() && runs == old(runs)
      ensures o.DIED? ==> cycles == old(cycles)
      ensures o.OK? ==>
        var row := old(cycles)[c].tables[t].(status := DELIVERED, lastRun := Some(run));
        cycles == old(cycles)[c := Cycle(CYCLE_RUNNING, old(cycles)[c].tables[t := row], None)]
      ensures RaisesIn(fates) ==> RaisesIn(old(fates))
      ensures fates == Rest(old(fates)) && (o.OK? <==> First(old(fates)) == WORKS)
    {
      var fate := Turn();
      if fate != WORKS { return DIED; }
      Update(c, t, cycles[c].tables[t].(status := DELIVERED, lastRun := Some(run)), CYCLE_RUNNING, None);
      o := OK;
    }

    method FailCycleTable(c: nat, t: nat, run: Option<nat>, retryAt: int) returns (o: Outcome)
      requires IsNext(c, t)
      modifies this
      ensures Valid() && KeepsHistory() && runs == old(runs)
      ensures o.DIED? ==> cycles == old(cycles)
      ensures o.OK? ==>
        var row := old(cycles)[c].tables[t].(status := FAILED, lastRun := run);
        cycles == old(cycles)[c := Cycle(RETRY_WAIT, old(cycles)[c].tables[t := row], Some(retryAt))]
      ensures RaisesIn(fates) ==> RaisesIn(old(fates))
      ensures fates == Rest(old(fates)) && (o.OK? <==> First(old(fates)) == WORKS)
    {
      var fate := Turn();
      if fate != WORKS { return DIED; }
      Update(c, t, cycles[c].tables[t].(status := FAILED, lastRun := run), RETRY_WAIT, Some(retryAt));
      o := OK;
    }

    method CompleteCycle(c: nat) returns (o: Outcome)
      requires Valid() && c == |cycles| - 1 && IsActive(cycles[c]) && AllDelivered(cycles[c].tables)
      modifies this
      ensures Valid() && KeepsHistory() && runs == old(runs)
      ensures o.DIED? ==> cycles == old(cycles)
      ensures o.OK? ==> cycles == old(cycles)[c := Cycle(COMPLETED, old(cycles)[c].tables, None)]
      ensures RaisesIn(fates) ==> RaisesIn(old(fates))
      ensures fates == Rest(old(fates)) && (o.OK? <==> First(old(fates)) == WORKS)
    {
      var fate := Turn();
      if fate != WORKS { return DIED; }
      cycles := cycles[c := Cycle(COMPLETED, cycles[c].tables, None)];
      o := OK;
    }

    // Only while no worker runs.
    method AbandonActiveCycle() returns (abandoned: bool)
      requires Valid()
      modifies this`cycles
      ensures Valid() && KeepsHistory() && ActiveCycle().None?
      ensures abandoned <==> old(ActiveCycle()).Some?
      ensures abandoned ==>
        var c := |old(cycles)| - 1;
        cycles == old(cycles)[c := old(cycles)[c].(status := ABANDONED, nextAttempt := None)]
      ensures !abandoned ==> cycles == old(cycles)
    {
      var c := ActiveCycle();
      if c.None? { return false; }
      cycles := cycles[c.value := cycles[c.value].(status := ABANDONED, nextAttempt := None)];
      abandoned := true;
    }

    // Tables that were being synced when the process stopped can be tried again, and their runs do
    // not stay active.
    method RecoverInterruptedCycle() returns (o: Outcome)
      requires Valid()
      modifies this
      ensures Valid() && KeepsHistory()
      ensures o.DIED? ==> cycles == old(cycles) && runs == old(runs)
      ensures o.OK? && old(ActiveCycle()).None? ==> cycles == old(cycles) && runs == old(runs)
      ensures o.OK? && old(ActiveCycle()).Some? ==>
        var c := |old(cycles)| - 1;
        && cycles == old(cycles)[c := old(cycles)[c].(tables := Interrupted(old(cycles)[c].tables))]
        && runs == Repaired(old(runs), old(cycles)[c].tables)
      ensures RaisesIn(fates) ==> RaisesIn(old(fates))
      ensures fates == Rest(old(fates)) && (o.OK? <==> First(old(fates)) == WORKS)
    {
      var fate := Turn();
      if fate != WORKS { return DIED; }
      o := OK;
      var active := ActiveCycle();
      if active.Some? {
        var c := active.value;
        var tables := cycles[c].tables;
        var repaired := runs;
        for i := 0 to |runs|
          invariant |repaired| == |runs|
          invariant forall k :: 0 <= k < |runs| ==> repaired[k] == if k < i then RepairedRun(runs[k], tables) else runs[k]
        {
          if Active(runs[i].status) && BeingSynced(tables, runs[i].table) {
            repaired := repaired[i := runs[i].(status := RUN_FAILED)];
          }
        }
        runs := repaired;
        var rows := tables;
        for i := 0 to |tables|
          invariant |rows| == |tables|
          invariant forall k :: 0 <= k < |tables| ==> rows[k] == if k < i then InterruptedRow(tables[k]) else tables[k]
        {
          if rows[i].status == RUNNING {
            rows := rows[i := rows[i].(status := FAILED)];
          }
        }
        assert rows == Interrupted(tables);
        InterruptedOk(cycles[c]);
        cycles := cycles[c := cycles[c].(tables := rows)];
      }
    }

    // --- One sync of a table, and a whole cycle ---

    method SyncTable(t: Table) returns (o: Outcome, run: Option<nat>, delivered: bool)
      modifies this`runs, this`fates
      ensures |runs| <= |old(runs)| ==> runs == old(runs)
      ensures |runs| > |old(runs)| ==> runs == old(runs) + [SyncRun(t, runs[|old(runs)|].status)]
      ensures o.OK? && delivered ==> run == Some(|old(runs)|) && runs == old(runs) + [SyncRun(t, RUN_DELIVERED)]
      ensures old(Blocked(runs, t)) ==> runs == old(runs) && !delivered
      ensures o.OK? && !RaisesIn(old(fates)) && runs != old(runs) ==> !Active(runs[|runs| - 1].status)
      ensures old(fates) == [] ==> o.OK? && fates == [] && (delivered <==> !old(Blocked(runs, t))) && (!delivered ==> runs == old(runs))
      ensures fates == Rest(old(fates))
      ensures First(old(fates)).SYNC_RAISES? && !old(Blocked(runs, t)) ==>
        o.OK? && run.None? && !delivered && runs == old(runs) + [SyncRun(t, First(old(fates)).left)]
      ensures RaisesIn(fates) ==> RaisesIn(old(fates))
    {
      var fate := Turn();
      run, delivered := None, false;
      if fate == DIES { return DIED, None, false; }
      if Blocked(runs, t) || fate == SYNC_REFUSED { return OK, None, false; }
      o := OK;
      if fate == SYNC_FAILS {
        run := Some(|runs|);
        runs := runs + [SyncRun(t, RUN_FAILED)];
      } else if fate.SYNC_RAISES? {
        runs := runs + [SyncRun(t, fate.left)];
      } else if fate.SYNC_DIES? {
        runs := runs + [SyncRun(t, fate.left)];
        o := DIED;
      } else {
        run, delivered := Some(|runs|), true;
        runs := runs + [SyncRun(t, RUN_DELIVERED)];
      }
    }
  }

  // A table has a run that was left active, and no new one can begin.
  predicate Blocked(runs: seq<SyncRun>, t: Table) {
    exists i :: 0 <= i < |runs| && runs[i].table == t && Active(runs[i].status)
  }

  // Nothing is left active but what recovery repairs.
  ghost predicate Healthy(cycles: seq<Cycle>, runs: seq<SyncRun>) {
    forall t :: Blocked(runs, t) ==>
      cycles != [] && IsActive(cycles[|cycles| - 1]) && BeingSynced(cycles[|cycles| - 1].tables, t)
  }

  // No table that still has to be delivered is blocked.
  predicate Deliverable(runs: seq<SyncRun>, tables: seq<CycleTable>) {
    forall i :: 0 <= i < |tables| && tables[i].status != DELIVERED ==> !Blocked(runs, tables[i].table)
  }

  // The same before recovery, for the active cycle or for one that is created from these tables.
  predicate CanComplete(cycles: seq<Cycle>, runs: seq<SyncRun>, enabled: seq<Table>) {
    if cycles != [] && IsActive(cycles[|cycles| - 1]) then
      var tables := cycles[|cycles| - 1].tables;
      forall i :: 0 <= i < |tables| && tables[i].status !in {DELIVERED, RUNNING} ==> !Blocked(runs, tables[i].table)
    else forall i :: 0 <= i < |enabled| ==> !Blocked(runs, enabled[i])
  }

  // The active cycle waits for a table that is blocked.
  ghost predicate Stuck(cycles: seq<Cycle>, runs: seq<SyncRun>) {
    && cycles != [] && cycles[|cycles| - 1].status == RETRY_WAIT
    && AnyWaits(cycles[|cycles| - 1].tables, runs)
  }

  ghost predicate AnyWaits(tables: seq<CycleTable>, runs: seq<SyncRun>) {
    exists t :: WaitsFor(tables, runs, t)
  }

  predicate WaitsFor(tables: seq<CycleTable>, runs: seq<SyncRun>, t: nat) {
    t < |tables| && tables[t].status == FAILED && Blocked(runs, tables[t].table)
  }

  lemma StuckCannotComplete(cycles: seq<Cycle>, runs: seq<SyncRun>, enabled: seq<Table>)
    requires Stuck(cycles, runs)
    ensures !CanComplete(cycles, runs, enabled)
  {
    var t :| WaitsFor(cycles[|cycles| - 1].tables, runs, t);
  }

  lemma RecoveryUnblocks(tables: seq<CycleTable>, runs: seq<SyncRun>)
    requires Distinct(tables)
    ensures forall t :: Blocked(Repaired(runs, tables), t) <==> Blocked(runs, t) && !BeingSynced(tables, t)
    ensures forall i :: 0 <= i < |tables| ==> (BeingSynced(tables, tables[i].table) <==> tables[i].status == RUNNING)
  {
    var repaired := Repaired(runs, tables);
    forall t
      ensures Blocked(repaired, t) <==> Blocked(runs, t) && !BeingSynced(tables, t)
    {
      if Blocked(runs, t) {
        var i :| 0 <= i < |runs| && runs[i].table == t && Active(runs[i].status);
        assert repaired[i] == RepairedRun(runs[i], tables);
      }
      if Blocked(repaired, t) {
        var i :| 0 <= i < |repaired| && repaired[i].table == t && Active(repaired[i].status);
        assert repaired[i] == RepairedRun(runs[i], tables);
      }
    }
  }

  // What is left blocked: everything but the tables that were being synced.
  predicate StaysBlocked(cycles: seq<Cycle>, runs: seq<SyncRun>, t: Table) {
    Blocked(runs, t) && !(cycles != [] && IsActive(cycles[|cycles| - 1]) && BeingSynced(cycles[|cycles| - 1].tables, t))
  }

  lemma HealthyRecovers(cycles: seq<Cycle>, runs: seq<SyncRun>)
    requires cycles != [] && IsActive(cycles[|cycles| - 1]) && Distinct(cycles[|cycles| - 1].tables)
    ensures var repaired := Repaired(runs, cycles[|cycles| - 1].tables);
            && (Healthy(cycles, runs) ==> forall t :: !Blocked(repaired, t))
            && (forall t :: StaysBlocked(cycles, runs, t) ==> Blocked(repaired, t))
  {
    RecoveryUnblocks(cycles[|cycles| - 1].tables, runs);
  }

  lemma RecoveredDeliverable(tables: seq<CycleTable>, runs: seq<SyncRun>)
    requires Distinct(tables)
    ensures Deliverable(Repaired(runs, tables), Interrupted(tables)) <==>
              forall i :: 0 <= i < |tables| && tables[i].status !in {DELIVERED, RUNNING} ==> !Blocked(runs, tables[i].table)
  {
    RecoveryUnblocks(tables, runs);
    var rows := Interrupted(tables);
    assert forall i :: 0 <= i < |tables| ==> rows[i].table == tables[i].table && (rows[i].status == DELIVERED <==> tables[i].status == DELIVERED);
    if forall i :: 0 <= i < |tables| && tables[i].status !in {DELIVERED, RUNNING} ==> !Blocked(runs, tables[i].table) {
      assert forall i :: 0 <= i < |tables| && rows[i].status != DELIVERED ==> !Blocked(Repaired(runs, tables), tables[i].table);
    } else {
      var i :| 0 <= i < |tables| && tables[i].status !in {DELIVERED, RUNNING} && Blocked(runs, tables[i].table);
      assert Blocked(Repaired(runs, tables), rows[i].table);
    }
  }

  function NewRows(tables: seq<Table>): (r: seq<CycleTable>)
    ensures |r| == |tables| && forall i :: 0 <= i < |r| ==> r[i] == CycleTable(tables[i], PENDING, 0, None)
  {
    seq(|tables|, i requires 0 <= i < |tables| => CycleTable(tables[i], PENDING, 0, None))
  }

  lemma NewDeliverable(tables: seq<Table>, runs: seq<SyncRun>)
    ensures Deliverable(runs, NewRows(tables)) <==> forall i :: 0 <= i < |tables| ==> !Blocked(runs, tables[i])
  {
    var rows := NewRows(tables);
    if Deliverable(runs, rows) {
      assert forall i :: 0 <= i < |tables| ==> rows[i].table == tables[i] && rows[i].status != DELIVERED;
    }
  }

  // A sync of the table leaves other tables as they were.
  lemma SyncBlocks(runs: seq<SyncRun>, run: SyncRun)
    ensures forall t :: Blocked(runs + [run], t) <==> Blocked(runs, t) || (t == run.table && Active(run.status))
  {
    forall t
      ensures Blocked(runs + [run], t) <==> Blocked(runs, t) || (t == run.table && Active(run.status))
    {
      if Blocked(runs, t) {
        var i :| 0 <= i < |runs| && runs[i].table == t && Active(runs[i].status);
        assert (runs + [run])[i] == runs[i];
      }
      assert (runs + [run])[|runs|] == run;
    }
  }

  // A sync whose failure could not be recorded.
  predicate RaisesIn(fates: seq<Fate>) {
    exists i :: 0 <= i < |fates| && fates[i].SYNC_RAISES?
  }

  predicate BeingSynced(tables: seq<CycleTable>, t: Table) {
    exists i :: 0 <= i < |tables| && tables[i].table == t && tables[i].status == RUNNING
  }

  function InterruptedRow(row: CycleTable): CycleTable {
    if row.status == RUNNING then row.(status := FAILED) else row
  }

  function Interrupted(tables: seq<CycleTable>): (r: seq<CycleTable>)
    ensures |r| == |tables| && forall i :: 0 <= i < |r| ==> r[i] == InterruptedRow(tables[i])
  {
    seq(|tables|, i requires 0 <= i < |tables| => InterruptedRow(tables[i]))
  }

  function RepairedRun(run: SyncRun, tables: seq<CycleTable>): SyncRun {
    if Active(run.status) && BeingSynced(tables, run.table) then run.(status := RUN_FAILED) else run
  }

  function Repaired(runs: seq<SyncRun>, tables: seq<CycleTable>): (r: seq<SyncRun>)
    ensures |r| == |runs| && forall i :: 0 <= i < |r| ==> r[i] == RepairedRun(runs[i], tables)
  {
    seq(|runs|, i requires 0 <= i < |runs| => RepairedRun(runs[i], tables))
  }

  lemma InterruptedOk(cycle: Cycle)
    requires CycleOk(cycle)
    ensures CycleOk(cycle.(tables := Interrupted(cycle.tables)))
  {
    var rows := Interrupted(cycle.tables);
    if cycle.status == RETRY_WAIT {
      var i :| 0 <= i < |cycle.tables| && cycle.tables[i].status == FAILED;
      assert rows[i].status == FAILED;
    }
  }

  // --- The runner ---

  class CycleRunner {
    const state: SourceState
    const retryAfter: nat

    constructor (state: SourceState, retryAfter: nat)
      ensures this.state == state && this.retryAfter == retryAfter
    {
      this.state, this.retryAfter := state, retryAfter;
    }

    // One run of the active cycle, or of a new one. Whatever fails, and wherever the process stops,
    // every cycle stays in order and what was delivered stays delivered. If nothing fails, the
    // cycle completes exactly if no table it still has to deliver is blocked. A table is blocked
    // only by a failure that could not be recorded, or by an abandoned cycle, and then stays so.
    method Run(enabled: seq<Table>, clock: int) returns (o: Outcome)
      requires state.Valid() && forall i, j :: 0 <= i < j < |enabled| ==> enabled[i] != enabled[j]
      modifies state
      ensures state.Valid() && state.KeepsHistory()
      ensures Healthy(old(state.cycles), old(state.runs)) && !RaisesIn(old(state.fates)) ==> Healthy(state.cycles, state.runs)
      ensures forall t :: StaysBlocked(old(state.cycles), old(state.runs), t) ==> Blocked(state.runs, t)
      ensures old(state.fates) == [] ==>
        && o.OK? && state.cycles != [] && |state.cycles| == |old(state.cycles)| + (if old(state.ActiveCycle()).Some? then 0 else 1)
        && (state.cycles[|state.cycles| - 1].status == COMPLETED <==> CanComplete(old(state.cycles), old(state.runs), enabled))
        && (state.cycles[|state.cycles| - 1].status == COMPLETED || Stuck(state.cycles, state.runs))
        && state.fates == []
    {
      var c;
      o, c := Resume(enabled);
      if o.DIED? { return; }
      o := Deliver(c, clock);
    }

    method Deliver(c: nat, clock: int) returns (o: Outcome)
      requires state.Valid() && c == |state.cycles| - 1 && IsActive(state.cycles[c])
      requires forall i :: 0 <= i < |state.cycles[c].tables| ==> state.cycles[c].tables[i].status != RUNNING
      modifies state
      ensures state.Valid() && state.KeepsHistory() && |state.cycles| == |old(state.cycles)|
      ensures forall t :: Blocked(old(state.runs), t) ==> Blocked(state.runs, t)
      ensures (forall t :: !Blocked(old(state.runs), t)) && !RaisesIn(old(state.fates)) ==> Healthy(state.cycles, state.runs)
      ensures old(state.fates) == [] ==>
        && o.OK? && state.fates == []
        && (state.cycles[c].status == COMPLETED <==> Deliverable(old(state.runs), old(state.cycles)[c].tables))
        && (state.cycles[c].status == COMPLETED || Stuck(state.cycles, state.runs))
    {
      o := DeliverTables(c, clock);
      if o.OK? { o := CompleteIfDelivered(c); }
    }

    method CompleteIfDelivered(c: nat) returns (o: Outcome)
      requires state.Valid() && c == |state.cycles| - 1 && IsActive(state.cycles[c])
      modifies state
      ensures state.Valid() && state.KeepsHistory() && state.runs == old(state.runs)
      ensures |state.cycles| == |old(state.cycles)|
      ensures Healthy(old(state.cycles), state.runs) ==> Healthy(state.cycles, state.runs)
      ensures o.OK? ==> (state.cycles[c].status == COMPLETED <==> AllDelivered(old(state.cycles)[c].tables))
      ensures !AllDelivered(old(state.cycles)[c].tables) ==> state.cycles == old(state.cycles)
      ensures old(state.fates) == [] ==> o.OK? && state.fates == []
    {
      o := OK;
      if AllDelivered(state.cycles[c].tables) {
        o := state.CompleteCycle(c);
      }
    }

    // The cycle to be delivered: the active one, recovered, or a new one.
    method Resume(enabled: seq<Table>) returns (o: Outcome, c: nat)
      requires state.Valid() && forall i, j :: 0 <= i < j < |enabled| ==> enabled[i] != enabled[j]
      modifies state
      ensures state.Valid() && state.KeepsHistory()
      ensures RaisesIn(state.fates) ==> RaisesIn(old(state.fates))
      ensures o.DIED? && Healthy(old(state.cycles), old(state.runs)) ==> Healthy(state.cycles, state.runs)
      ensures o.OK? ==>
        && c == |state.cycles| - 1 && IsActive(state.cycles[c])
        && |state.cycles| == |old(state.cycles)| + (if old(state.ActiveCycle()).Some? then 0 else 1)
        && (forall i :: 0 <= i < |state.cycles[c].tables| ==> state.cycles[c].tables[i].status != RUNNING)
        && (Healthy(old(state.cycles), old(state.runs)) ==> forall t :: !Blocked(state.runs, t))
        && (forall t :: StaysBlocked(old(state.cycles), old(state.runs), t) ==> Blocked(state.runs, t))
        && (Deliverable(state.runs, state.cycles[c].tables) <==> CanComplete(old(state.cycles), old(state.runs), enabled))
      ensures o.DIED? ==> forall t :: StaysBlocked(old(state.cycles), old(state.runs), t) ==> Blocked(state.runs, t)
      ensures old(state.fates) == [] ==> o.OK? && state.fates == []
    {
      ghost var cycles, runs := state.cycles, state.runs;
      c := 0;
      o := state.RecoverInterruptedCycle();
      if o.DIED? { return; }
      var active := state.ActiveCycle();
      if active.Some? {
        HealthyRecovers(cycles, runs);
        RecoveredDeliverable(cycles[|cycles| - 1].tables, runs);
        return o, active.value;
      }
      c := |state.cycles|;
      o := state.CreateCycle(enabled);
      NewDeliverable(enabled, runs);
    }

    method DeliverTables(c: nat, clock: int) returns (o: Outcome)
      requires state.Valid() && c == |state.cycles| - 1 && IsActive(state.cycles[c])
      requires forall i :: 0 <= i < |state.cycles[c].tables| ==> state.cycles[c].tables[i].status != RUNNING
      modifies state
      ensures state.Valid() && state.KeepsHistory()
      ensures |state.cycles| == |old(state.cycles)| && IsActive(state.cycles[c])
      ensures forall t :: Blocked(old(state.runs), t) ==> Blocked(state.runs, t)
      ensures (forall t :: !Blocked(old(state.runs), t)) && !RaisesIn(old(state.fates)) ==> Healthy(state.cycles, state.runs)
      ensures old(state.fates) == [] ==>
        && o.OK? && state.fates == [] && (AllDelivered(state.cycles[c].tables) <==> Deliverable(old(state.runs), old(state.cycles)[c].tables))
        && (AllDelivered(state.cycles[c].tables) || Stuck(state.cycles, state.runs))
    {
      o := OK;
      var n := |state.cycles[c].tables|;
      for t := 0 to n
        invariant state.Valid() && state.KeepsHistory() && o.OK?
        invariant |state.cycles| == |old(state.cycles)| && IsActive(state.cycles[c]) && n == |state.cycles[c].tables|
        invariant forall i :: 0 <= i < t ==> state.cycles[c].tables[i].status == DELIVERED
        invariant forall i :: t <= i < n ==> state.cycles[c].tables[i] == old(state.cycles[c].tables[i])
        invariant RaisesIn(state.fates) ==> RaisesIn(old(state.fates))
        invariant forall u :: Blocked(state.runs, u) <==> Blocked(old(state.runs), u)
        invariant old(state.fates) == [] ==>
                    state.fates == [] && forall i :: 0 <= i < t && old(state.cycles[c].tables[i].status) != DELIVERED ==>
                                           !Blocked(old(state.runs), old(state.cycles)[c].tables[i].table)
      {
        var goesOn;
        o, goesOn := DeliverNext(c, t, clock);
        if o.DIED? || !goesOn { return; }
      }
    }

    // The table at this place, unless it is delivered or the process was told to stop.
    method DeliverNext(c: nat, t: nat, clock: int) returns (o: Outcome, goesOn: bool)
      requires state.Valid() && c == |state.cycles| - 1 && IsActive(state.cycles[c]) && t < |state.cycles[c].tables|
      requires forall i :: 0 <= i < t ==> state.cycles[c].tables[i].status == DELIVERED
      modifies state
      ensures state.Valid() && state.KeepsHistory() && |state.cycles| == |old(state.cycles)| && IsActive(state.cycles[c])
      ensures |state.cycles[c].tables| == |old(state.cycles[c].tables)|
      ensures forall i :: 0 <= i < |state.cycles[c].tables| && i != t ==> state.cycles[c].tables[i] == old(state.cycles[c].tables[i])
      ensures o.OK? && goesOn ==>
        && state.cycles[c].tables[t].status == DELIVERED
        && forall u :: Blocked(state.runs, u) <==> Blocked(old(state.runs), u)
      ensures RaisesIn(state.fates) ==> RaisesIn(old(state.fates))
      ensures forall u :: Blocked(old(state.runs), u) ==> Blocked(state.runs, u)
      ensures (forall u :: !Blocked(old(state.runs), u)) && !RaisesIn(old(state.fates)) ==> Healthy(state.cycles, state.runs)
      ensures old(state.fates) == [] ==>
        && o.OK? && state.fates == []
        && (goesOn <==> old(state.cycles[c].tables[t].status) == DELIVERED || !Blocked(old(state.runs), old(state.cycles)[c].tables[t].table))
        && (!goesOn ==> Stuck(state.cycles, state.runs) && state.cycles[c].tables[t].status != DELIVERED)
    {
      o, goesOn := OK, state.cycles[c].tables[t].status == DELIVERED;
      if goesOn { return; }
      var fate := state.Turn();
      if fate == STOPS { return; }
      o, goesOn := DeliverTable(c, t, clock);
      if o.OK? && !goesOn {
        assert old(state.fates) == [] ==> WaitsFor(state.cycles[c].tables, state.runs, t);
      }
    }

    method DeliverTable(c: nat, t: nat, clock: int) returns (o: Outcome, delivered: bool)
      requires state.IsNext(c, t)
      modifies state
      ensures state.Valid() && state.KeepsHistory()
      ensures |state.cycles| == |old(state.cycles)| && IsActive(state.cycles[c])
      ensures |state.cycles[c].tables| == |old(state.cycles[c].tables)|
      ensures forall i :: 0 <= i < |state.cycles[c].tables| && i != t ==> state.cycles[c].tables[i] == old(state.cycles[c].tables[i])
      ensures o.OK? && delivered ==>
        && state.runs == old(state.runs) + [SyncRun(old(state.cycles)[c].tables[t].table, RUN_DELIVERED)]
        && var row := old(state.cycles)[c].tables[t];
           state.cycles[c].tables[t] == row.(status := DELIVERED, attempts := row.attempts + 1, lastRun := Some(|old(state.runs)|))
      ensures o.OK? && delivered ==> forall u :: Blocked(state.runs, u) <==> Blocked(old(state.runs), u)
      ensures o.OK? && !delivered ==>
        && state.cycles[c].status == RETRY_WAIT && state.cycles[c].nextAttempt == Some(clock + retryAfter)
        && var row := old(state.cycles)[c].tables[t];
           state.cycles[c].tables[t] == row.(status := FAILED, attempts := row.attempts + 1, lastRun := state.cycles[c].tables[t].lastRun)
      ensures RaisesIn(state.fates) ==> RaisesIn(old(state.fates))
      ensures forall u :: Blocked(old(state.runs), u) ==> Blocked(state.runs, u)
      ensures (forall u :: !Blocked(old(state.runs), u)) && !RaisesIn(old(state.fates)) ==> Healthy(state.cycles, state.runs)
      ensures old(state.fates) == [] ==>
        o.OK? && state.fates == [] && (delivered <==> !Blocked(old(state.runs), old(state.cycles)[c].tables[t].table))
    {
      delivered := false;
      o := state.StartCycleTable(c, t);
      if o.DIED? { return; }
      var table := state.cycles[c].tables[t].table;
      ghost var before := state.runs;
      var run;
      o, run, delivered := state.SyncTable(table);
      if state.runs != before {
        SyncBlocks(before, state.runs[|before|]);
      }
      assert BeingSynced(state.cycles[c].tables, table);
      if o.DIED? { return; }
      o := Record(c, t, run, delivered, clock);
    }

    // The result of the sync is recorded.
    method Record(c: nat, t: nat, run: Option<nat>, delivered: bool, clock: int) returns (o: Outcome)
      requires state.IsNext(c, t) && state.cycles[c].status == CYCLE_RUNNING && (delivered ==> run.Some?)
      modifies state
      ensures state.Valid() && state.KeepsHistory() && state.runs == old(state.runs)
      ensures |state.cycles| == |old(state.cycles)| && IsActive(state.cycles[c])
      ensures |state.cycles[c].tables| == |old(state.cycles[c].tables)|
      ensures forall i :: 0 <= i < |state.cycles[c].tables| && i != t ==> state.cycles[c].tables[i] == old(state.cycles[c].tables[i])
      ensures o.DIED? ==> state.cycles == old(state.cycles)
      ensures o.OK? ==>
        state.cycles[c].tables[t] == old(state.cycles)[c].tables[t].(status := if delivered then DELIVERED else FAILED, lastRun := run)
      ensures o.OK? && !delivered ==> state.cycles[c].status == RETRY_WAIT && state.cycles[c].nextAttempt == Some(clock + retryAfter)
      ensures RaisesIn(state.fates) ==> RaisesIn(old(state.fates))
      ensures state.fates == Rest(old(state.fates)) && (o.OK? <==> First(old(state.fates)) == WORKS)
    {
      if !delivered {
        o := state.FailCycleTable(c, t, run, clock + retryAfter);
      } else {
        o := state.DeliverCycleTable(c, t, run.value);
      }
    }

    // Once a table the cycle waits for is blocked, no number of runs without a failure completes it.
    method RunAgain(calls: nat, enabled: seq<Table>, clock: int)
      requires state.Valid() && state.fates == [] && Stuck(state.cycles, state.runs)
      requires forall i, j :: 0 <= i < j < |enabled| ==> enabled[i] != enabled[j]
      modifies state
      ensures state.Valid() && Stuck(state.cycles, state.runs) && |state.cycles| == |old(state.cycles)|
    {
      for i := 0 to calls
        invariant state.Valid() && state.fates == [] && Stuck(state.cycles, state.runs)
        invariant |state.cycles| == |old(state.cycles)|
      {
        StuckCannotComplete(state.cycles, state.runs, enabled);
        var _ := Run(enabled, clock);
      }
    }
  }

  // And for every list of tables this happens: the first sync of the first table fails, the failure
  // cannot be recorded, and all that comes after works.
  method FailureFreeButStuck(tables: seq<Table>, left: RunStatus, calls: nat, retryAfter: nat, clock: int) returns (state: SourceState)
    requires tables != [] && (forall i, j :: 0 <= i < j < |tables| ==> tables[i] != tables[j]) && Active(left)
    ensures fresh(state) && state.Valid() && Stuck(state.cycles, state.runs) && |state.cycles| == 1
  {
    var fates := [WORKS, WORKS, SYNC_RAISES(left)];
    state := new SourceState(fates);
    assert Rest(Rest(fates)) == [SYNC_RAISES(left)];
    var o := state.CreateCycle(tables);
    o := state.StartCycleTable(0, 0);
    var run, delivered;
    o, run, delivered := state.SyncTable(tables[0]);
    o := state.FailCycleTable(0, 0, run, clock + retryAfter);
    assert state.runs[0] == SyncRun(tables[0], left);
    assert WaitsFor(state.cycles[0].tables, state.runs, 0);
    var runner := new CycleRunner(state, retryAfter);
    runner.RunAgain(calls, tables, clock);
  }
}
