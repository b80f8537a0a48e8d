/** Accounts of the rejection log over whole runs, crashes included. */
module QueueAccounts {
  import opened Numbers
  import opened SubmitResult
  import opened BlockQueue
  import opened QueueProofs
  import opened QueueCrashes
  import opened QueueRuns

  /** A live rejection that makes a new row logs a rejection no row counts. */
  predicate MakesRejectedRow(st: Store, hit: BlockHit, env: HitEnv) {
    && !env.inTransition && env.prepared.Some? && !(env.isXuni && !env.windowOpen) && !env.shuttingDown && env.networkUp
    && !SubmitAccepted(env.reply) && env.reply.status != 0 && env.networkStillUp
    && !IsDifficultyMismatch(env.reply) && !IsXuniWindowReject(env.reply)
    && hit.key !in PendingKeys(st.rows)
  }

  /** Rejections logged for a block that is only then to get its row. */
  function LoggedOnArrival(st: Store, e: Event): nat {
    match e
    case Hit(hit, env) => if MakesRejectedRow(st, hit, env) then 1 else 0
    case CrashInHit(hit, env, done) => if MakesRejectedRow(st, hit, env) && done >= 1 then 1 else 0
    case _ => 0
  }

  function RejectedOnArrival(events: seq<Event>): nat {
    if events == [] then 0
    else RejectedOnArrival(events[..|events| - 1])
         + LoggedOnArrival(Run(events[..|events| - 1]), events[|events| - 1])
  }

  /** A worker that has counted its row's first rejection and not yet logged it. */
  function Owed(todo: seq<Op>): nat {
    if todo != [] && todo[0].ChangeRow? then 0 else RejectionsIn(todo)
  }

  function OwedByAll(workers: seq<Worker>): nat {
    if workers == [] then 0 else OwedByAll(workers[..|workers| - 1]) + Owed(workers[|workers| - 1].todo)
  }

  predicate CountsFirst(st: Store, ops: seq<HitOp>) {
    ops != [] && ops[0].CountRow? && ops[0].id < |st.rows| && st.rows[ops[0].id].rejectCount == 0
  }

  /** First rejections that a crash left counted and not logged. */
  function CutOffBy(st: Store, e: Event): nat {
    match e
    case CrashInHit(hit, env, done) =>
      if CountsFirst(st, PartOfHit(st, hit, env, done)) && |PartOfHit(st, hit, env, done)| == 1 then 1 else 0
    case CrashInFlush(env, onShutdown, schedule) =>
      OwedByAll(RunSchedule(st, FlushWorkers(st, env, onShutdown), schedule).1)
    case _ => 0
  }

  function CutOff(events: seq<Event>): nat {
    if events == [] then 0
    else CutOff(events[..|events| - 1]) + CutOffBy(Run(events[..|events| - 1]), events[|events| - 1])
  }

  /** Logged rejections that no rejected row accounts for. */
  function Unmatched(st: Store): int {
    |st.rejected| - RejectedRows(st.rows)
  }

  lemma EnqueueAccounts(st: Store, hit: BlockHit, reason: string)
    ensures Unmatched(Enqueue(st, hit, reason)) == Unmatched(st)
  {
    RejectedRowsAppend(st.rows, [NewRow(hit, reason)]);
  }

  lemma LiveRejectionAccounts(st: Store, hit: BlockHit, reply: Reply)
    ensures Unmatched(RecordLiveRejection(st, hit, reply))
         == Unmatched(st) + (if hit.key in PendingKeys(st.rows) then 0 else 1)
  {
    match FirstPending(st.rows, hit.key)
    case Some(id) => RejectedRowsUpdate(st.rows, id, CountReject(st.rows[id], RESUBMISSION_REASON));
    case None => EnqueueAccounts(LogFirstReject(st, true, hit.key, reply), hit, RESUBMISSION_REASON);
  }

  lemma HitAccounts(st: Store, hit: BlockHit, env: HitEnv)
    ensures Unmatched(HandleHit(st, hit, env))
         == Unmatched(st) + (if MakesRejectedRow(st, hit, env) then 1 else 0)
  {
    if env.inTransition {
      EnqueueAccounts(st, hit, DIFFICULTY_CHANGE_REASON);
    } else if env.prepared.Some? {
      var block := env.prepared.value.(key := hit.key);
      EnqueueAccounts(st, block, OUTSIDE_XUNI_WINDOW_REASON);
      EnqueueAccounts(st, block, SHUTDOWN_PENDING_REASON);
      EnqueueAccounts(st, block, NETWORK_DOWN_REASON);
      EnqueueAccounts(st, block, DIFFICULTY_CHANGE_REASON);
      EnqueueAccounts(RecordDirectSubmit(st, hit.key, env.reply), block, NETWORK_DOWN_REASON);
      LiveRejectionAccounts(st, block, env.reply);
    }
  }

  // ------------------------------------------------------------ a hit cut off

  function RejectEntries(ops: seq<HitOp>): nat {
    if ops == [] then 0 else RejectEntries(ops[..|ops| - 1]) + (if ops[|ops| - 1].LogReject? then 1 else 0)
  }

  predicate CountLeads(ops: seq<HitOp>) {
    forall i :: 0 < i < |ops| ==> !ops[i].CountRow?
  }

  lemma HitOpAccounts(st: Store, op: HitOp)
    ensures Unmatched(PerformHit(st, op))
         == Unmatched(st) + (if op.LogReject? then 1 else 0)
            - (if op.CountRow? && op.id < |st.rows| && st.rows[op.id].rejectCount == 0 then 1 else 0)
  {
    match op
    case InsertHit(hit, reason) => RejectedRowsAppend(st.rows, [NewRow(hit, reason)]);
    case CountRow(id) =>
      if id < |st.rows| {
        RejectedRowsUpdate(st.rows, id, CountReject(st.rows[id], RESUBMISSION_REASON));
      }
    case _ =>
  }

  lemma {:induction false} OpsAccount(st: Store, ops: seq<HitOp>)
    requires CountLeads(ops)
    ensures Unmatched(PerformHits(st, ops))
         == Unmatched(st) + RejectEntries(ops) - (if CountsFirst(st, ops) then 1 else 0)
  {
    hide Unmatched, PerformHit;
    if ops == [] {
      NoOperations(st);
    } else {
      var n := |ops| - 1;
      OpsAccount(st, ops[..n]);
      HitOpAccounts(PerformHits(st, ops[..n]), ops[n]);
      if n == 0 {
        NoOperations(st);
      }
    }
  }

  lemma {:induction false} EntriesUpTo(ops: seq<HitOp>, at: nat)
    requires forall i :: 0 <= i < |ops| ==> (ops[i].LogReject? <==> i == at)
    ensures RejectEntries(ops) == if at < |ops| then 1 else 0
  {
    if ops == [] {
    } else {
      EntriesUpTo(ops[..|ops| - 1], at);
    }
  }

  lemma {:induction false} NoEntries(ops: seq<HitOp>)
    requires forall i :: 0 <= i < |ops| ==> !ops[i].LogReject?
    ensures RejectEntries(ops) == 0
  {
    if ops == [] {
    } else {
      NoEntries(ops[..|ops| - 1]);
    }
  }

  /** Where a hit counts a row and where it logs a rejection. */
  lemma ScriptShape(st: Store, hit: BlockHit, env: HitEnv)
    ensures var script := HitScript(st, hit, env);
            && CountLeads(script)
            && (MakesRejectedRow(st, hit, env) ==>
                  forall i :: 0 <= i < |script| ==> (script[i].LogReject? <==> i == 0))
            && (MakesRejectedRow(st, hit, env) ==> script != [] && !script[0].CountRow?)
            && (!MakesRejectedRow(st, hit, env) && CountsFirst(st, script) ==>
                  |script| > 1 && forall i :: 0 <= i < |script| ==> (script[i].LogReject? <==> i == 1))
            && (!MakesRejectedRow(st, hit, env) && !CountsFirst(st, script) ==>
                  forall i :: 0 <= i < |script| ==> !script[i].LogReject?)
  {
    hide SubmitAccepted, IsDifficultyMismatch, IsXuniWindowReject, PendingKeys;
  }

  lemma PartAccounts(st: Store, hit: BlockHit, env: HitEnv, done: nat)
    ensures Unmatched(PerformHits(st, PartOfHit(st, hit, env, done)))
         == Unmatched(st) + LoggedOnArrival(st, CrashInHit(hit, env, done)) - CutOffBy(st, CrashInHit(hit, env, done))
  {
    ScriptShape(st, hit, env);
    hide HitScript, PerformHits, Unmatched, MakesRejectedRow;
    var script, part := HitScript(st, hit, env), PartOfHit(st, hit, env, done);
    assert forall i :: 0 <= i < |part| ==> part[i] == script[i];
    OpsAccount(st, part);
    if MakesRejectedRow(st, hit, env) {
      EntriesUpTo(part, 0);
    } else if CountsFirst(st, script) {
      EntriesUpTo(part, 1);
    } else {
      NoEntries(part);
    }
  }

  // ---------------------------------------------------------- a flush cut off

  predicate FirstReject(row: Row, action: Action) {
    action.Reject? && row.status == Pending && row.rejectCount == 0
  }

  /** Only the first operation changes the row, and it is followed by the log entry it owes. */
  predicate Sound(row: Row, todo: seq<Op>) {
    && (forall k :: 0 < k < |todo| ==> !todo[k].ChangeRow?)
    && (todo != [] && todo[0].ChangeRow? ==>
          RejectionsIn(todo[1..]) == if FirstReject(row, todo[0].action) then 1 else 0)
  }

  predicate AllSound(st: Store, workers: seq<Worker>)
    requires WorkersOf(st, workers)
  {
    forall w :: 0 <= w < |workers| ==> Sound(st.rows[workers[w].id], workers[w].todo)
  }

  lemma {:induction false} OwedUpdate(workers: seq<Worker>, w: nat, worker: Worker)
    requires w < |workers|
    ensures OwedByAll(workers[w := worker]) + Owed(workers[w].todo) == OwedByAll(workers) + Owed(worker.todo)
  {
    var n := |workers| - 1;
    if w == n {
      assert workers[w := worker][..n] == workers[..n];
    } else {
      OwedUpdate(workers[..n], w, worker);
      assert workers[w := worker][..n] == workers[..n][w := worker];
    }
  }

  lemma {:induction false} NothingOwed(workers: seq<Worker>)
    requires forall w :: 0 <= w < |workers| ==> Owed(workers[w].todo) == 0
    ensures OwedByAll(workers) == 0
  {
    if workers == [] {
    } else {
      NothingOwed(workers[..|workers| - 1]);
    }
  }

  lemma ScriptIsSound(row: Row, action: Action)
    ensures Sound(row, Script(row, action)) && Owed(Script(row, action)) == 0
  {
    var todo := Script(row, action);
    ScriptUnfolds(todo);
    if |todo| == 3 {
      assert RejectionsIn(todo[1..][1..]) == 0;
    }
  }

  lemma OpAccounts(st: Store, id: nat, op: Op)
    requires id < |st.rows|
    ensures Unmatched(Perform(st, id, op))
         == Unmatched(st) + (if op.AppendRejected? then 1 else 0)
            - (if op.ChangeRow? && FirstReject(st.rows[id], op.action) then 1 else 0)
  {
    if op.ChangeRow? {
      RejectedRowsUpdate(st.rows, id, RowAfter(st.rows[id], op.action));
    }
  }

  lemma OwedAfterMove(row: Row, todo: seq<Op>)
    requires todo != [] && Sound(row, todo)
    ensures Owed(todo[1..])
         == Owed(todo) - (if todo[0].AppendRejected? then 1 else 0)
            + (if todo[0].ChangeRow? && FirstReject(row, todo[0].action) then 1 else 0)
    ensures forall other :: Sound(other, todo[1..])
  {
    var rest := todo[1..];
    assert forall k :: 0 <= k < |rest| ==> rest[k] == todo[k + 1];
  }

  lemma MoveAccounts(st: Store, workers: seq<Worker>, w: nat, next: Store, moved: seq<Worker>)
    requires WorkersOf(st, workers) && AllSound(st, workers) && w < |workers| && workers[w].todo != []
    requires next == Perform(st, workers[w].id, workers[w].todo[0])
    requires moved == workers[w := workers[w].(todo := workers[w].todo[1..])]
    ensures Unmatched(next) + OwedByAll(moved) == Unmatched(st) + OwedByAll(workers)
    ensures WorkersOf(next, moved) && AllSound(next, moved)
  {
    hide Unmatched, Owed, Sound, FirstReject;
    OpAccounts(st, workers[w].id, workers[w].todo[0]);
    assert Sound(st.rows[workers[w].id], workers[w].todo);
    OwedAfterMove(st.rows[workers[w].id], workers[w].todo);
    OwedUpdate(workers, w, moved[w]);
    forall v | 0 <= v < |moved| ensures Sound(next.rows[moved[v].id], moved[v].todo) {
      if v != w {
        assert next.rows[moved[v].id] == st.rows[workers[v].id];
      }
    }
  }

  lemma {:induction false} ScheduleAccounts(st: Store, workers: seq<Worker>, schedule: seq<nat>)
    requires WorkersOf(st, workers) && AllSound(st, workers)
    ensures var (after, rest) := RunSchedule(st, workers, schedule);
            Unmatched(after) + OwedByAll(rest) == Unmatched(st) + OwedByAll(workers)
    decreases |schedule|
  {
    if schedule == [] {
    } else {
      hide Perform, Unmatched, AllSound;
      var w := schedule[0];
      if w < |workers| && workers[w].todo != [] {
        var next := Perform(st, workers[w].id, workers[w].todo[0]);
        var moved := workers[w := workers[w].(todo := workers[w].todo[1..])];
        MoveAccounts(st, workers, w, next, moved);
        ScheduleAccounts(next, moved, schedule[1..]);
      } else {
        ScheduleAccounts(st, workers, schedule[1..]);
      }
    }
  }

  lemma CutOffFlushAccounts(st: Store, env: nat -> RowEnv, onShutdown: bool, schedule: seq<nat>)
    ensures var e := CrashInFlush(env, onShutdown, schedule);
            Unmatched(Apply(st, e)) + CutOffBy(st, e) == Unmatched(st)
  {
    hide Script, PrepareRow, Unmatched, Sound, Owed, RunSchedule;
    var workers := FlushWorkers(st, env, onShutdown);
    forall w | 0 <= w < |workers|
      ensures Sound(st.rows[workers[w].id], workers[w].todo) && Owed(workers[w].todo) == 0
    {
      ScriptIsSound(st.rows[workers[w].id], PrepareRow(st.rows[workers[w].id], env(workers[w].id), onShutdown).0);
    }
    NothingOwed(workers);
    ScheduleAccounts(st, workers, schedule);
  }

  // -------------------------------------------------------------- whole runs

  lemma ImportAccounts(st: Store)
    ensures Unmatched(Import(st)) == Unmatched(st)
  {
    var imported := ImportedRows(Fresh(st.log, KnownKeys(st)));
    forall r | r in imported ensures r.rejectCount == 0 {
      var i :| 0 <= i < |imported| && imported[i] == r;
    }
    RejectedRowsAppend(st.rows, imported);
  }

  lemma RelabellingAccounts(st: Store, e: Event)
    requires e.Deferring? || e.Reclassifying? || e.Migrating?
    ensures Unmatched(Apply(st, e)) == Unmatched(st)
  {
    hide HasFailedSubmission;
    match e
    case Deferring(windowOpen) =>
      DeferKeepsRows(st, PendingIds(st.rows), windowOpen);
      RejectedRowsSame(st.rows, Apply(st, e).rows);
    case Reclassifying(classify) =>
      RejectedRowsSame(st.rows, Apply(st, e).rows);
    case Migrating =>
      RejectedRowsSame(st.rows, Apply(st, e).rows);
  }

  lemma EventAccounts(st: Store, e: Event)
    ensures Unmatched(Apply(st, e)) == Unmatched(st) + LoggedOnArrival(st, e) - CutOffBy(st, e)
  {
    hide Unmatched, MakesRejectedRow, RunSchedule, PerformHits, HandleHit, CutOffBy, LoggedOnArrival, Import;
    NothingSpecial(st, e);
    match e
    case Hit(hit, env) => HitAccounts(st, hit, env);
    case CrashInHit(hit, env, done) => PartAccounts(st, hit, env, done);
    case CrashInFlush(env, onShutdown, schedule) => CutOffFlushAccounts(st, env, onShutdown, schedule);
    case Flushing(env, onShutdown) => FlushAccounts(st, env, onShutdown);
    case Importing => ImportAccounts(st);
    case _ => RelabellingAccounts(st, e);
  }

  lemma FlushAccounts(st: Store, env: nat -> RowEnv, onShutdown: bool)
    ensures Unmatched(Flush(st, env, onShutdown)) == Unmatched(st)
  {
    hide PrepareRow, FlushRows, RowAfter;
    FlushRowsByRow(st, PendingIds(st.rows), env, onShutdown);
  }

  lemma NothingSpecial(st: Store, e: Event)
    ensures !e.Hit? && !e.CrashInHit? ==> LoggedOnArrival(st, e) == 0
    ensures !e.CrashInHit? && !e.CrashInFlush? ==> CutOffBy(st, e) == 0
    ensures e.Hit? ==> LoggedOnArrival(st, e) == if MakesRejectedRow(st, e.hit, e.hitEnv) then 1 else 0
  {
  }

  /**
    The rejection log's length over any run: one entry for each row ever rejected and one for each block rejected
    on arrival, less the first rejections a crash left counted and not logged.
   */
  lemma {:induction false} RejectionLogAccounts(events: seq<Event>)
    ensures |Run(events).rejected| + CutOff(events) == RejectedRows(Run(events).rows) + RejectedOnArrival(events)
  {
    if events == [] {
    } else {
      hide CutOffBy, LoggedOnArrival, Apply;
      RejectionLogAccounts(events[..|events| - 1]);
      EventAccounts(Run(events[..|events| - 1]), events[|events| - 1]);
    }
  }
}
