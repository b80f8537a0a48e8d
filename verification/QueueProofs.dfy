/** What the durable queue keeps over whole runs, crashes and restarts included. */
module QueueProofs {
  import opened Numbers
  import opened SubmitResult
  import opened BlockQueue

  // ------------------------------------------------------------------ import

  lemma {:induction false} FreshFacts(log: seq<LogRecord>, known: set<string>)
    ensures forall r :: r in Fresh(log, known) ==> r in log && r.hit.key !in known
    ensures forall i, j :: 0 <= i < j < |Fresh(log, known)| ==>
              Fresh(log, known)[i].hit.key != Fresh(log, known)[j].hit.key
    ensures LogKeys(log) <= known + LogKeys(Fresh(log, known))
  {
    if log == [] {
    } else {
      var before := Fresh(log[..|log| - 1], known);
      var record := log[|log| - 1];
      FreshFacts(log[..|log| - 1], known);
      assert log == log[..|log| - 1] + [record];
      forall r | r in log ensures r.hit.key in known + LogKeys(Fresh(log, known)) {
        if r in log[..|log| - 1] {
          assert r.hit.key in LogKeys(log[..|log| - 1]);
        }
        if record in Fresh(log, known) {
          assert record.hit.key in LogKeys(Fresh(log, known));
        }
        assert forall k :: k in LogKeys(before) ==> k in LogKeys(Fresh(log, known));
      }
    }
  }

  lemma {:induction false} NothingFresh(log: seq<LogRecord>, known: set<string>)
    requires LogKeys(log) <= known
    ensures Fresh(log, known) == []
  {
    if log == [] {
    } else {
      forall k | k in LogKeys(log[..|log| - 1]) ensures k in known {
        assert k in LogKeys(log);
      }
      NothingFresh(log[..|log| - 1], known);
      assert log[|log| - 1].hit.key in LogKeys(log);
    }
  }

  lemma ImportedKeys(rows: seq<Row>, records: seq<LogRecord>)
    ensures PendingKeys(rows + ImportedRows(records)) == PendingKeys(rows) + LogKeys(records)
  {
    var all := rows + ImportedRows(records);
    forall k | k in LogKeys(records) ensures k in PendingKeys(all) {
      var i :| 0 <= i < |records| && records[i].hit.key == k;
      assert all[|rows| + i] == ImportedRow(records[i]);
    }
    forall k | k in PendingKeys(rows) ensures k in PendingKeys(all) {
      var r :| r in rows && r.status == Pending && r.hit.key == k;
      assert r in all;
    }
    forall k | k in PendingKeys(all) ensures k in PendingKeys(rows) + LogKeys(records) {
      var i :| 0 <= i < |all| && all[i].status == Pending && all[i].hit.key == k;
      if i >= |rows| {
        assert records[i - |rows|] in records;
      }
    }
  }

  /** After an import every block ever logged is pending or recorded as accepted. */
  lemma ImportRecoversEveryBlock(st: Store)
    ensures LogKeys(st.log) <= PendingKeys(Import(st).rows) + AcceptedKeys(st.submitted)
    ensures PendingKeys(st.rows) <= PendingKeys(Import(st).rows)
  {
    FreshFacts(st.log, KnownKeys(st));
    ImportedKeys(st.rows, Fresh(st.log, KnownKeys(st)));
  }

  /** A second import finds nothing to do. */
  lemma ImportIsIdempotent(st: Store)
    ensures Import(Import(st)) == Import(st)
    ensures Fresh(st.log, KnownKeys(Import(st))) == []
  {
    ImportRecoversEveryBlock(st);
    NothingFresh(st.log, KnownKeys(Import(st)));
    assert Import(st).rows + [] == Import(st).rows;
  }

  lemma CountOfAppend(rows: seq<Row>, row: Row, key: string)
    ensures PendingCountOf(rows + [row], key)
         == PendingCountOf(rows, key) + (if row.status == Pending && row.hit.key == key then 1 else 0)
  {
    assert (rows + [row])[..|rows|] == rows;
  }

  lemma {:induction false} NoPendingRowNoCount(rows: seq<Row>, key: string)
    ensures PendingCountOf(rows, key) == 0 <==> key !in PendingKeys(rows)
  {
    if rows == [] {
    } else {
      NoPendingRowNoCount(rows[..|rows| - 1], key);
      assert rows == rows[..|rows| - 1] + [rows[|rows| - 1]];
    }
  }

  lemma ImportedRowsSplit(rows: seq<Row>, records: seq<LogRecord>)
    requires records != []
    ensures rows + ImportedRows(records)
         == (rows + ImportedRows(records[..|records| - 1])) + [ImportedRow(records[|records| - 1])]
  {
  }

  lemma KeysOfAppend(records: seq<LogRecord>, last: LogRecord)
    ensures LogKeys(records + [last]) == LogKeys(records) + {last.hit.key}
  {
    forall k | k in LogKeys(records) + {last.hit.key} ensures k in LogKeys(records + [last]) {
      assert last in records + [last];
      if k in LogKeys(records) {
        var r :| r in records && r.hit.key == k;
        assert r in records + [last];
      }
    }
  }

  lemma {:induction false} ImportedCount(rows: seq<Row>, records: seq<LogRecord>, key: string)
    requires forall i, j :: 0 <= i < j < |records| ==> records[i].hit.key != records[j].hit.key
    ensures PendingCountOf(rows + ImportedRows(records), key)
         == PendingCountOf(rows, key) + (if key in LogKeys(records) then 1 else 0)
  {
    hide PendingCountOf, ImportedRows, ImportedRow, LogKeys;
    if records == [] {
      assert rows + ImportedRows(records) == rows;
      NoLogKeys();
    } else {
      var init, last := records[..|records| - 1], records[|records| - 1];
      ImportedCount(rows, init, key);
      ImportedRowsSplit(rows, records);
      CountOfAppend(rows + ImportedRows(init), ImportedRow(last), key);
      assert records == init + [last];
      KeysOfAppend(init, last);
      LastKeyIsNew(records);
      assert ImportedRow(last).status == Pending && ImportedRow(last).hit.key == last.hit.key by {
        ImportedRowIsPending(last);
      }
    }
  }

  lemma NoLogKeys()
    ensures LogKeys([]) == {}
  {
  }

  lemma ImportedRowIsPending(record: LogRecord)
    ensures ImportedRow(record).status == Pending && ImportedRow(record).hit.key == record.hit.key
  {
  }

  lemma LastKeyIsNew(records: seq<LogRecord>)
    requires records != [] && forall i, j :: 0 <= i < j < |records| ==> records[i].hit.key != records[j].hit.key
    ensures records[|records| - 1].hit.key !in LogKeys(records[..|records| - 1])
  {
    var init, key := records[..|records| - 1], records[|records| - 1].hit.key;
    forall r | r in init ensures r.hit.key != key {
      var i :| 0 <= i < |init| && init[i] == r;
      assert records[i] == r;
    }
  }

  /** An import adds no second pending row: the count of a key rises only from nothing to one. */
  lemma ImportNeverDuplicates(st: Store, key: string)
    ensures PendingCountOf(Import(st).rows, key) <= Max(1, PendingCountOf(st.rows, key))
    ensures PendingCountOf(st.rows, key) >= 1 ==>
              PendingCountOf(Import(st).rows, key) == PendingCountOf(st.rows, key)
  {
    var unknown := Fresh(st.log, KnownKeys(st));
    FreshFacts(st.log, KnownKeys(st));
    ImportedCount(st.rows, unknown, key);
    NoPendingRowNoCount(st.rows, key);
  }

  /** A re-import restores the row an undisturbed enqueue would have made exactly when the block carried no difficulty. */
  lemma ImportRestoresTheRowExactly(st: Store, hit: BlockHit, reason: string)
    requires hit.key !in KnownKeys(st) && hit.key !in LogKeys(st.log)
    requires Fresh(st.log, KnownKeys(st)) == []
    ensures Import(AppendLog(st, hit, reason)) == Enqueue(st, hit, reason) <==> hit.memoryCost == None
  {
    var record := LogRecord(hit, reason);
    var logged := AppendLog(st, hit, reason);
    assert logged.log[..|logged.log| - 1] == st.log;
    assert Fresh(logged.log, KnownKeys(st)) == [record];
    assert ImportedRows([record]) == [ImportedRow(record)];
    var imported, enqueued := Import(logged), Enqueue(st, hit, reason);
    assert imported.rows[|st.rows|] == ImportedRow(record) && enqueued.rows[|st.rows|] == NewRow(hit, reason);
  }

  // ---------------------------------------------------------------- counting

  lemma {:induction false} PendingCountUpdate(rows: seq<Row>, id: nat, row: Row)
    requires id < |rows|
    ensures PendingCount(rows[id := row]) + (if rows[id].status == Pending then 1 else 0)
         == PendingCount(rows) + (if row.status == Pending then 1 else 0)
  {
    var n := |rows| - 1;
    if id == n {
      assert rows[id := row][..n] == rows[..n];
    } else {
      PendingCountUpdate(rows[..n], id, row);
      assert rows[id := row][..n] == rows[..n][id := row];
    }
  }

  lemma {:induction false} RejectedRowsUpdate(rows: seq<Row>, id: nat, row: Row)
    requires id < |rows|
    ensures RejectedRows(rows[id := row]) + (if rows[id].rejectCount > 0 then 1 else 0)
         == RejectedRows(rows) + (if row.rejectCount > 0 then 1 else 0)
  {
    var n := |rows| - 1;
    if id == n {
      assert rows[id := row][..n] == rows[..n];
    } else {
      RejectedRowsUpdate(rows[..n], id, row);
      assert rows[id := row][..n] == rows[..n][id := row];
    }
  }

  lemma {:induction false} RejectedRowsAppend(rows: seq<Row>, more: seq<Row>)
    requires forall r :: r in more ==> r.rejectCount == 0
    ensures RejectedRows(rows + more) == RejectedRows(rows)
  {
    if more == [] {
      assert rows + more == rows;
    } else {
      var n := |more| - 1;
      RejectedRowsAppend(rows, more[..n]);
      assert (rows + more)[..|rows| + n] == rows + more[..n];
      assert more[n] in more;
    }
  }

  lemma {:induction false} RejectedRowsSame(a: seq<Row>, b: seq<Row>)
    requires |a| == |b|
    requires forall i :: 0 <= i < |a| ==> a[i].rejectCount == b[i].rejectCount
    ensures RejectedRows(a) == RejectedRows(b)
  {
    if a == [] {
    } else {
      RejectedRowsSame(a[..|a| - 1], b[..|b| - 1]);
    }
  }

  // ------------------------------------------------------------------- flush

  /** A worker's row after its action. */
  function RowAfter(row: Row, action: Action): Row {
    match action
    case NoAction => row
    case SetReason(reason) => if row.status == Pending then row.(queueReason := reason) else row
    case Submit(_) => row.(status := Submitted)
    case Reject(_, reason) => if row.status == Pending then CountReject(row, reason) else row
  }

  lemma ActChangesOneRow(st: Store, id: nat, action: Action)
    requires id < |st.rows|
    ensures Act(st, id, action).rows == st.rows[id := RowAfter(st.rows[id], action)]
    ensures Act(st, id, action).log == st.log
    ensures st.submitted <= Act(st, id, action).submitted
  {
  }

  lemma ActAccounts(st: Store, id: nat, action: Action)
    requires id < |st.rows| && st.rows[id].status == Pending
    ensures PendingCount(Act(st, id, action).rows) == PendingCount(st.rows) - (if action.Submit? then 1 else 0)
    ensures |Act(st, id, action).rejected| - RejectedRows(Act(st, id, action).rows)
         == |st.rejected| - RejectedRows(st.rows)
    ensures |Act(st, id, action).rejected| - |st.rejected|
         == if action.Reject? && st.rows[id].rejectCount == 0 then 1 else 0
  {
    PendingCountUpdate(st.rows, id, RowAfter(st.rows[id], action));
    RejectedRowsUpdate(st.rows, id, RowAfter(st.rows[id], action));
  }

  /** Only an accepted or filtered block leaves the queue. */
  lemma OnlyClosedBlocksLeave(row: Row, env: RowEnv, onShutdown: bool)
    ensures var (action, outcome) := PrepareRow(row, env, onShutdown);
            && (Leaves(outcome) <==> action.Submit?)
            && (action.Submit? ==> SubmitAccepted(action.reply) || action.reply == FILTERED)
            && (action.Submit? && Success(action.reply.status) ==> action.reply == env.reply)
  {
  }

  function Departures(rows: seq<Row>, ids: seq<nat>, env: nat -> RowEnv, onShutdown: bool): nat
    requires forall i :: 0 <= i < |ids| ==> ids[i] < |rows|
  {
    if ids == [] then 0
    else
      var id := ids[|ids| - 1];
      Departures(rows, ids[..|ids| - 1], env, onShutdown)
      + (if Leaves(PrepareRow(rows[id], env(id), onShutdown).1) then 1 else 0)
  }

  lemma {:induction false} FlushLeavesRows(st: Store, ids: seq<nat>, env: nat -> RowEnv, onShutdown: bool)
    requires forall i :: 0 <= i < |ids| ==> ids[i] < |st.rows|
    requires forall i, j :: 0 <= i < j < |ids| ==> ids[i] != ids[j]
    ensures var after := FlushRows(st, ids, env, onShutdown);
            && after.log == st.log && st.submitted <= after.submitted
            && (forall id: nat :: id < |st.rows| ==>
                  after.rows[id] == if id in ids
                                    then RowAfter(st.rows[id], PrepareRow(st.rows[id], env(id), onShutdown).0)
                                    else st.rows[id])
  {
    if ids == [] {
    } else {
      var init, id := ids[..|ids| - 1], ids[|ids| - 1];
      hide PrepareRow, Act, RowAfter;
      FlushLeavesRows(st, init, env, onShutdown);
      var before := FlushRows(st, init, env, onShutdown);
      assert id !in init && before.rows[id] == st.rows[id];
      ActChangesOneRow(before, id, PrepareRow(st.rows[id], env(id), onShutdown).0);
      assert ids == init + [id];
    }
  }

  /** The rows a flush leaves behind, one by one, and what leaves the queue. */
  lemma {:induction false} FlushRowsByRow(st: Store, ids: seq<nat>, env: nat -> RowEnv, onShutdown: bool)
    requires forall i :: 0 <= i < |ids| ==> ids[i] < |st.rows| && st.rows[ids[i]].status == Pending
    requires forall i, j :: 0 <= i < j < |ids| ==> ids[i] != ids[j]
    ensures var after := FlushRows(st, ids, env, onShutdown);
            && after.log == st.log && st.submitted <= after.submitted
            && (forall id: nat :: id < |st.rows| ==>
                  after.rows[id] == if id in ids
                                    then RowAfter(st.rows[id], PrepareRow(st.rows[id], env(id), onShutdown).0)
                                    else st.rows[id])
            && PendingCount(after.rows) == PendingCount(st.rows) - Departures(st.rows, ids, env, onShutdown)
            && |after.rejected| - RejectedRows(after.rows) == |st.rejected| - RejectedRows(st.rows)
  {
    FlushLeavesRows(st, ids, env, onShutdown);
    if ids == [] {
    } else {
      var init, id := ids[..|ids| - 1], ids[|ids| - 1];
      hide PrepareRow, Act, RowAfter, PendingCount, RejectedRows;
      FlushRowsByRow(st, init, env, onShutdown);
      var before := FlushRows(st, init, env, onShutdown);
      assert id !in init && before.rows[id] == st.rows[id];
      OnlyClosedBlocksLeave(st.rows[id], env(id), onShutdown);
      ActAccounts(before, id, PrepareRow(st.rows[id], env(id), onShutdown).0);
    }
  }

  // ----------------------------------------------- workers in any interleaving

  datatype Op = ChangeRow(action: Action) | AppendRejected(key: string, reply: Reply) | AppendSubmitted(key: string, reply: Reply)

  /** A flush worker: its row and the store operations it has yet to make, in order. */
  datatype Worker = Worker(id: nat, todo: seq<Op>)

  /** Each operation is one transaction; a first rejection takes three. */
  function Script(row: Row, action: Action): seq<Op> {
    match action
    case NoAction => []
    case Reject(reply, _) =>
      if row.status == Pending && row.rejectCount == 0
      then [ChangeRow(action), AppendRejected(row.hit.key, reply), AppendSubmitted(row.hit.key, reply)]
      else [ChangeRow(action)]
    case _ => [ChangeRow(action)]
  }

  function Perform(st: Store, id: nat, op: Op): (r: Store)
    requires id < |st.rows|
    ensures |r.rows| == |st.rows|
  {
    match op
    case ChangeRow(action) =>
      st.(rows := st.rows[id := RowAfter(st.rows[id], action)],
          submitted := st.submitted + (if action.Submit? then [Submission(st.rows[id].hit.key, action.reply)] else []))
    case AppendRejected(key, reply) => LogRejection(st, key, reply)
    case AppendSubmitted(key, reply) => RecordDirectSubmit(st, key, reply)
  }

  predicate WorkersOf(st: Store, workers: seq<Worker>) {
    && (forall w :: 0 <= w < |workers| ==> workers[w].id < |st.rows|)
    && (forall v, w :: 0 <= v < w < |workers| ==> workers[v].id != workers[w].id)
  }

  /** Let the workers move in the order of the schedule, one operation at a time. */
  function RunSchedule(st: Store, workers: seq<Worker>, schedule: seq<nat>): (Store, seq<Worker>)
    requires WorkersOf(st, workers)
    decreases |schedule|
  {
    if schedule == [] then (st, workers)
    else
      var w := schedule[0];
      if w < |workers| && workers[w].todo != [] then
        var worker := workers[w];
        RunSchedule(Perform(st, worker.id, worker.todo[0]),
                    workers[w := worker.(todo := worker.todo[1..])], schedule[1..])
      else RunSchedule(st, workers, schedule[1..])
  }

  /** The row a worker will leave once its remaining operations are done. */
  function Destined(row: Row, todo: seq<Op>): Row
    decreases |todo|
  {
    if todo == [] then row
    else Destined(if todo[0].ChangeRow? then RowAfter(row, todo[0].action) else row, todo[1..])
  }

  function RejectionsIn(todo: seq<Op>): nat
    decreases |todo|
  {
    if todo == [] then 0 else (if todo[0].AppendRejected? then 1 else 0) + RejectionsIn(todo[1..])
  }

  function RejectionsLeft(workers: seq<Worker>): nat {
    if workers == [] then 0
    else RejectionsLeft(workers[..|workers| - 1]) + RejectionsIn(workers[|workers| - 1].todo)
  }

  lemma {:induction false} RejectionsLeftUpdate(workers: seq<Worker>, w: nat, worker: Worker)
    requires w < |workers|
    ensures RejectionsLeft(workers[w := worker]) + RejectionsIn(workers[w].todo)
         == RejectionsLeft(workers) + RejectionsIn(worker.todo)
  {
    var n := |workers| - 1;
    if w == n {
      assert workers[w := worker][..n] == workers[..n];
    } else {
      RejectionsLeftUpdate(workers[..n], w, worker);
      assert workers[w := worker][..n] == workers[..n][w := worker];
    }
  }

  lemma {:induction false} NoRejectionsLeft(workers: seq<Worker>)
    requires Finished(workers)
    ensures RejectionsLeft(workers) == 0
  {
    if workers == [] {
    } else {
      NoRejectionsLeft(workers[..|workers| - 1]);
    }
  }

  predicate Finished(workers: seq<Worker>) {
    forall w :: 0 <= w < |workers| ==> workers[w].todo == []
  }

  /** What any number of moves keeps: each row's destiny, the other rows, and the rejections still due. */
  predicate SameDestiny(st: Store, workers: seq<Worker>, after: Store, rest: seq<Worker>)
    requires WorkersOf(st, workers)
  {
    && |after.rows| == |st.rows| && |rest| == |workers|
    && WorkersOf(after, rest)
    && (forall w :: 0 <= w < |workers| ==>
          rest[w].id == workers[w].id
          && Destined(after.rows[rest[w].id], rest[w].todo) == Destined(st.rows[workers[w].id], workers[w].todo))
    && (forall id: nat :: id < |st.rows| && (forall w :: 0 <= w < |workers| ==> workers[w].id != id) ==>
          after.rows[id] == st.rows[id])
    && |after.rejected| + RejectionsLeft(rest) == |st.rejected| + RejectionsLeft(workers)
  }

  lemma OneMoveKeepsDestiny(st: Store, workers: seq<Worker>, w: nat)
    requires WorkersOf(st, workers) && w < |workers| && workers[w].todo != []
    ensures SameDestiny(st, workers, Perform(st, workers[w].id, workers[w].todo[0]),
                        workers[w := workers[w].(todo := workers[w].todo[1..])])
  {
    hide RowAfter;
    var worker := workers[w];
    var moved := workers[w := worker.(todo := worker.todo[1..])];
    var next := Perform(st, worker.id, worker.todo[0]);
    RejectionsLeftUpdate(workers, w, moved[w]);
    assert forall v :: 0 <= v < |workers| ==> moved[v].id == workers[v].id;
    assert forall v :: 0 <= v < |workers| && v != w ==> next.rows[workers[v].id] == st.rows[workers[v].id];
  }

  /** No interleaving moves a row's destiny. */
  lemma {:induction false} ScheduleKeepsDestiny(st: Store, workers: seq<Worker>, schedule: seq<nat>)
    requires WorkersOf(st, workers)
    ensures var (after, rest) := RunSchedule(st, workers, schedule);
            SameDestiny(st, workers, after, rest)
    decreases |schedule|
  {
    if schedule == [] {
    } else {
      hide Perform, Destined;
      var w := schedule[0];
      if w < |workers| && workers[w].todo != [] {
        OneMoveKeepsDestiny(st, workers, w);
        ScheduleKeepsDestiny(Perform(st, workers[w].id, workers[w].todo[0]),
                             workers[w := workers[w].(todo := workers[w].todo[1..])], schedule[1..]);
      } else {
        ScheduleKeepsDestiny(st, workers, schedule[1..]);
      }
    }
  }

  function WorkersFor(rows: seq<Row>, ids: seq<nat>, env: nat -> RowEnv, onShutdown: bool): (workers: seq<Worker>)
    requires forall i :: 0 <= i < |ids| ==> ids[i] < |rows|
    ensures |workers| == |ids| && forall w :: 0 <= w < |ids| ==> workers[w].id == ids[w]
  {
    seq(|ids|, i requires 0 <= i < |ids| =>
      Worker(ids[i], Script(rows[ids[i]], PrepareRow(rows[ids[i]], env(ids[i]), onShutdown).0)))
  }

  function FlushWorkers(st: Store, env: nat -> RowEnv, onShutdown: bool): (workers: seq<Worker>)
    ensures |workers| == |PendingIds(st.rows)|
    ensures WorkersOf(st, workers)
  {
    WorkersFor(st.rows, PendingIds(st.rows), env, onShutdown)
  }

  lemma {:induction false} WorkersRejectWhatTheFlushRejects(
    st: Store, ids: seq<nat>, env: nat -> RowEnv, onShutdown: bool)
    requires forall i :: 0 <= i < |ids| ==> ids[i] < |st.rows| && st.rows[ids[i]].status == Pending
    requires forall i, j :: 0 <= i < j < |ids| ==> ids[i] != ids[j]
    ensures |FlushRows(st, ids, env, onShutdown).rejected|
         == |st.rejected| + RejectionsLeft(WorkersFor(st.rows, ids, env, onShutdown))
  {
    if ids == [] {
    } else {
      var init, id := ids[..|ids| - 1], ids[|ids| - 1];
      hide PrepareRow, Act, RowAfter, PendingCount, RejectedRows, RejectionsIn, Script;
      WorkersRejectWhatTheFlushRejects(st, init, env, onShutdown);
      var before := FlushRows(st, init, env, onShutdown);
      assert before.rows[id] == st.rows[id] by {
        FlushLeavesRows(st, init, env, onShutdown);
        assert id !in init;
      }
      var action := PrepareRow(st.rows[id], env(id), onShutdown).0;
      ActAccounts(before, id, action);
      var workers := WorkersFor(st.rows, ids, env, onShutdown);
      assert workers[..|ids| - 1] == WorkersFor(st.rows, init, env, onShutdown);
      assert workers[|ids| - 1].todo == Script(st.rows[id], action);
      ScriptRejections(st.rows[id], action);
    }
  }

  lemma ScriptUnfolds(todo: seq<Op>)
    requires 1 <= |todo| <= 3 || todo == []
    ensures |todo| == 1 ==> todo[1..] == []
    ensures |todo| == 3 ==> todo[1..] == [todo[1], todo[2]] && todo[1..][1..] == [todo[2]] && todo[1..][1..][1..] == []
  {
  }

  lemma ScriptRejections(row: Row, action: Action)
    ensures RejectionsIn(Script(row, action))
         == if action.Reject? && row.status == Pending && row.rejectCount == 0 then 1 else 0
  {
    var todo := Script(row, action);
    ScriptUnfolds(todo);
    if |todo| == 3 {
      assert RejectionsIn(todo[1..][1..]) == 0;
      assert RejectionsIn(todo[1..]) == 1;
    }
  }

  lemma ScriptReachesRowAfter(row: Row, action: Action)
    ensures Destined(row, Script(row, action)) == RowAfter(row, action)
  {
    var todo := Script(row, action);
    ScriptUnfolds(todo);
    if |todo| == 3 {
      var after := RowAfter(row, action);
      assert Destined(after, todo[1..][1..]) == after;
      assert Destined(after, todo[1..]) == after;
    }
  }

  lemma SameRowsAfter(
    st: Store, ids: seq<nat>, env: nat -> RowEnv, onShutdown: bool, after: Store, rest: seq<Worker>)
    requires forall i :: 0 <= i < |ids| ==> ids[i] < |st.rows|
    requires forall i, j :: 0 <= i < j < |ids| ==> ids[i] != ids[j]
    requires WorkersOf(st, WorkersFor(st.rows, ids, env, onShutdown))
    requires SameDestiny(st, WorkersFor(st.rows, ids, env, onShutdown), after, rest) && Finished(rest)
    ensures after.rows == FlushRows(st, ids, env, onShutdown).rows
  {
    hide Script, PrepareRow, RowAfter, FlushRows;
    FlushLeavesRows(st, ids, env, onShutdown);
    var workers := WorkersFor(st.rows, ids, env, onShutdown);
    forall id: nat | id < |st.rows| ensures after.rows[id] == FlushRows(st, ids, env, onShutdown).rows[id] {
      if id in ids {
        var w :| 0 <= w < |ids| && ids[w] == id;
        assert workers[w].id == id && rest[w].todo == [];
        ScriptReachesRowAfter(st.rows[id], PrepareRow(st.rows[id], env(id), onShutdown).0);
      } else {
        assert forall w :: 0 <= w < |workers| ==> workers[w].id == ids[w];
      }
    }
  }

  /**
    However the row workers interleave, a finished flush leaves the rows and the number of logged rejections
    that a one-by-one flush leaves, and the pending count falls by exactly the rows flushed or dropped.
   */
  lemma AnyScheduleFlushesAlike(st: Store, env: nat -> RowEnv, onShutdown: bool, schedule: seq<nat>)
    requires Finished(RunSchedule(st, FlushWorkers(st, env, onShutdown), schedule).1)
    ensures var after := RunSchedule(st, FlushWorkers(st, env, onShutdown), schedule).0;
            && after.rows == Flush(st, env, onShutdown).rows
            && |after.rejected| == |Flush(st, env, onShutdown).rejected|
            && PendingCount(after.rows) == PendingCount(st.rows) - Departures(st.rows, PendingIds(st.rows), env, onShutdown)
  {
    var ids := PendingIds(st.rows);
    var workers := FlushWorkers(st, env, onShutdown);
    ScheduleKeepsDestiny(st, workers, schedule);
    FlushRowsByRow(st, ids, env, onShutdown);
    WorkersRejectWhatTheFlushRejects(st, ids, env, onShutdown);
    NoRejectionsLeft(RunSchedule(st, workers, schedule).1);
    var (after, rest) := RunSchedule(st, workers, schedule);
    var one := Flush(st, env, onShutdown);
    hide Script, PrepareRow, RowAfter, PendingIds, FlushRows;
    assert after.rows == one.rows by {
      SameRowsAfter(st, ids, env, onShutdown, after, rest);
    }
  }

  /** A schedule that names every worker as often as it has operations left finishes them all. */
  lemma {:induction false} EnoughMovesFinish(st: Store, workers: seq<Worker>, schedule: seq<nat>)
    requires WorkersOf(st, workers)
    requires forall w :: 0 <= w < |workers| ==> |workers[w].todo| <= multiset(schedule)[w]
    ensures Finished(RunSchedule(st, workers, schedule).1)
    decreases |schedule|
  {
    hide Perform;
    if schedule == [] {
    } else {
      var w := schedule[0];
      assert schedule == [w] + schedule[1..];
      if w < |workers| && workers[w].todo != [] {
        var next := Perform(st, workers[w].id, workers[w].todo[0]);
        EnoughMovesFinish(next, workers[w := workers[w].(todo := workers[w].todo[1..])], schedule[1..]);
      } else {
        EnoughMovesFinish(st, workers, schedule[1..]);
      }
    }
  }

  lemma ScriptsAreShort(row: Row, action: Action)
    ensures |Script(row, action)| <= 3
  {
  }

  /** In particular one that gives each row's worker three turns, in whatever order. */
  lemma ThreeTurnsEachFlushAlike(st: Store, env: nat -> RowEnv, onShutdown: bool, schedule: seq<nat>)
    requires forall w :: 0 <= w < |PendingIds(st.rows)| ==> 3 <= multiset(schedule)[w]
    ensures var (after, rest) := RunSchedule(st, FlushWorkers(st, env, onShutdown), schedule);
            && Finished(rest)
            && after.rows == Flush(st, env, onShutdown).rows
            && |after.rejected| == |Flush(st, env, onShutdown).rejected|
            && PendingCount(after.rows) == PendingCount(st.rows) - Departures(st.rows, PendingIds(st.rows), env, onShutdown)
  {
    hide Script, PrepareRow, Flush, PendingIds, Finished, RunSchedule;
    var workers := FlushWorkers(st, env, onShutdown);
    forall w | 0 <= w < |workers| ensures |workers[w].todo| <= 3 {
      ScriptsAreShort(st.rows[workers[w].id], PrepareRow(st.rows[workers[w].id], env(workers[w].id), onShutdown).0);
    }
    EnoughMovesFinish(st, workers, schedule);
    AnyScheduleFlushesAlike(st, env, onShutdown, schedule);
  }
}
