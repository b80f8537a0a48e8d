/** Whole runs of the queue: hits, crashes, flushes cut off anywhere, deferrals, imports and relabelling in any order. */
module QueueRuns {
  import opened Numbers
  import opened SubmitResult
  import opened BlockQueue
  import opened QueueProofs
  import opened QueueCrashes

  datatype Event =
    | Hit(hit: BlockHit, hitEnv: HitEnv)
    | CrashInHit(hit: BlockHit, hitEnv: HitEnv, done: nat)
    | Flushing(rowEnv: nat -> RowEnv, onShutdown: bool)
    | CrashInFlush(rowEnv: nat -> RowEnv, onShutdown: bool, schedule: seq<nat>)
    | Deferring(windowOpen: nat -> bool)
    | Importing
    | Reclassifying(classify: (string, string) -> string)
    | Migrating

  function Apply(st: Store, e: Event): Store {
    match e
    case Hit(hit, env) => HandleHit(st, hit, env)
    case CrashInHit(hit, env, done) => PerformHits(st, PartOfHit(st, hit, env, done))
    case Flushing(env, onShutdown) => Flush(st, env, onShutdown)
    case CrashInFlush(env, onShutdown, schedule) => RunSchedule(st, FlushWorkers(st, env, onShutdown), schedule).0
    case Deferring(windowOpen) => DeferToNextStart(st, windowOpen)
    case Importing => Import(st)
    case Reclassifying(classify) => Reclassify(st, classify)
    case Migrating => MigrateRejectedPending(st)
  }

  function Run(events: seq<Event>): Store {
    if events == [] then EMPTY
    else Apply(Run(events[..|events| - 1]), events[|events| - 1])
  }

  /** Keys whose row a crash kept from being inserted, since the last import. */
  function Orphans(events: seq<Event>): set<string> {
    if events == [] then {}
    else
      var before := Orphans(events[..|events| - 1]);
      match events[|events| - 1]
      case CrashInHit(hit, env, done) => before + OrphansOf(PartOfHit(Run(events[..|events| - 1]), hit, env, done))
      case Importing => {}
      case _ => before
  }

  // ----------------------------------------------------------- one event each

  /** A hit the CPU confirms is never dropped: it ends pending or closed. */
  lemma HitIsNeverDropped(st: Store, hit: BlockHit, env: HitEnv, orphans: set<string>)
    requires Covered(st, orphans)
    ensures Covered(HandleHit(st, hit, env), orphans)
    ensures env.inTransition || env.prepared.Some? ==>
              hit.key in PendingKeys(HandleHit(st, hit, env).rows) + ClosedKeys(HandleHit(st, hit, env).submitted)
  {
    var after := HandleHit(st, hit, env);
    if env.inTransition {
      EnqueueCovers(st, hit, DIFFICULTY_CHANGE_REASON, orphans);
    } else if env.prepared.Some? {
      var block := env.prepared.value.(key := hit.key);
      SubmissionCovers(st, hit.key, env.reply, orphans);
      EnqueueCovers(RecordDirectSubmit(st, hit.key, env.reply), block, NETWORK_DOWN_REASON, orphans);
      EnqueueCovers(st, block, OUTSIDE_XUNI_WINDOW_REASON, orphans);
      EnqueueCovers(st, block, SHUTDOWN_PENDING_REASON, orphans);
      EnqueueCovers(st, block, NETWORK_DOWN_REASON, orphans);
      EnqueueCovers(st, block, DIFFICULTY_CHANGE_REASON, orphans);
      LiveRejectionCovers(st, block, env.reply, orphans);
    }
  }

  lemma {:induction false} DeferKeepsRows(st: Store, ids: seq<nat>, windowOpen: nat -> bool)
    requires forall i :: 0 <= i < |ids| ==> ids[i] < |st.rows|
    ensures var after := DeferRows(st, ids, windowOpen);
            && after == st.(rows := after.rows)
            && forall i :: 0 <= i < |st.rows| ==> after.rows[i] == st.rows[i].(queueReason := after.rows[i].queueReason)
  {
    if ids == [] {
    } else {
      DeferKeepsRows(st, ids[..|ids| - 1], windowOpen);
    }
  }

  lemma DeferringCovers(st: Store, windowOpen: nat -> bool, orphans: set<string>)
    requires Covered(st, orphans)
    ensures Covered(DeferToNextStart(st, windowOpen), orphans)
  {
    DeferKeepsRows(st, PendingIds(st.rows), windowOpen);
    PendingKeysKept(st.rows, DeferToNextStart(st, windowOpen).rows, {});
  }

  lemma ReclassifyingCovers(st: Store, classify: (string, string) -> string, orphans: set<string>)
    requires Covered(st, orphans)
    ensures Covered(Reclassify(st, classify), orphans)
  {
    PendingKeysKept(st.rows, Reclassify(st, classify).rows, {});
  }

  lemma MigratingCovers(st: Store, orphans: set<string>)
    requires Covered(st, orphans)
    ensures Covered(MigrateRejectedPending(st), orphans)
  {
    hide HasFailedSubmission;
    PendingKeysKept(st.rows, MigrateRejectedPending(st).rows, {});
  }

  lemma CutOffFlushCovers(st: Store, env: nat -> RowEnv, onShutdown: bool, schedule: seq<nat>, orphans: set<string>)
    requires Covered(st, orphans)
    ensures Covered(RunSchedule(st, FlushWorkers(st, env, onShutdown), schedule).0, orphans)
  {
    hide Covered, FlushWorkers, RunSchedule;
    FlushWorkIsHonest(st, env, onShutdown);
    ScheduleCovers(st, FlushWorkers(st, env, onShutdown), schedule, orphans);
  }

  lemma ApplyCovers(st: Store, e: Event, orphans: set<string>)
    requires Covered(st, orphans)
    requires !e.Importing? && !e.CrashInHit?
    ensures Covered(Apply(st, e), orphans)
  {
    hide Covered, HandleHit, FlushRows, RunSchedule, DeferToNextStart, Reclassify, MigrateRejectedPending;
    match e
    case Hit(hit, env) => HitIsNeverDropped(st, hit, env, orphans);
    case Flushing(env, onShutdown) => FlushCovers(st, PendingIds(st.rows), env, onShutdown, orphans);
    case CrashInFlush(env, onShutdown, schedule) => CutOffFlushCovers(st, env, onShutdown, schedule, orphans);
    case Deferring(windowOpen) => DeferringCovers(st, windowOpen, orphans);
    case Reclassifying(classify) => ReclassifyingCovers(st, classify, orphans);
    case Migrating => MigratingCovers(st, orphans);
  }

  // -------------------------------------------------------------- main results

  /**
    No block is lost over any run, with crashes after any operation of a hit and between any two operations of
    a flush's workers: every block ever logged is pending, or the pool or the CPU check closed it, or a crash
    kept its row out and the next import puts it back.
   */
  lemma {:induction false} NoBlockIsLost(events: seq<Event>)
    ensures Covered(Run(events), Orphans(events))
  {
    if events == [] {
    } else {
      hide Covered, Apply, PartOfHit, OrphansOf;
      var init, e := events[..|events| - 1], events[|events| - 1];
      NoBlockIsLost(init);
      match e
      case CrashInHit(hit, env, done) => CutOffHitCovers(Run(init), hit, env, done, Orphans(init));
      case Importing => ImportCovers(Run(init));
      case _ => ApplyCovers(Run(init), e, Orphans(init));
    }
  }

  lemma CutOffHitCovers(st: Store, hit: BlockHit, env: HitEnv, done: nat, orphans: set<string>)
    requires Covered(st, orphans)
    ensures Covered(Apply(st, CrashInHit(hit, env, done)), orphans + OrphansOf(PartOfHit(st, hit, env, done)))
  {
    hide Covered;
    PartCovers(st, hit, env, done, orphans);
  }

  lemma ImportCovers(st: Store)
    ensures Covered(Apply(st, Importing), {})
  {
    ImportRecoversEveryBlock(st);
    AcceptedAreClosed(st.submitted);
  }

  // ------------------------------------------- only the pool makes a block final

  /** The replies of an event tell the truth about what the pool holds. */
  predicate Truthful(st: Store, e: Event, pool: set<string>) {
    match e
    case Hit(hit, env) => Success(env.reply.status) ==> hit.key in pool
    case CrashInHit(hit, env, _) => Success(env.reply.status) ==> hit.key in pool
    case Flushing(env, _) =>
      forall id: nat :: id < |st.rows| && Success(env(id).reply.status) ==> st.rows[id].hit.key in pool
    case CrashInFlush(env, _, _) =>
      forall id: nat :: id < |st.rows| && Success(env(id).reply.status) ==> st.rows[id].hit.key in pool
    case _ => true
  }

  predicate TruthfulRun(events: seq<Event>, pool: set<string>) {
    events == [] ||
    (TruthfulRun(events[..|events| - 1], pool) && Truthful(Run(events[..|events| - 1]), events[|events| - 1], pool))
  }

  lemma AcceptedOfAppend(submitted: seq<Submission>, s: Submission, pool: set<string>)
    requires AcceptedKeys(submitted) <= pool
    requires Success(s.reply.status) ==> s.key in pool
    ensures AcceptedKeys(submitted + [s]) <= pool
  {
  }

  lemma {:induction false} FlushAcceptsOnlyPooled(
    st: Store, ids: seq<nat>, env: nat -> RowEnv, onShutdown: bool, pool: set<string>)
    requires forall i :: 0 <= i < |ids| ==> ids[i] < |st.rows|
    requires AcceptedKeys(st.submitted) <= pool
    requires forall id: nat :: id < |st.rows| && Success(env(id).reply.status) ==> st.rows[id].hit.key in pool
    ensures AcceptedKeys(FlushRows(st, ids, env, onShutdown).submitted) <= pool
    ensures forall i :: 0 <= i < |st.rows| ==> FlushRows(st, ids, env, onShutdown).rows[i].hit == st.rows[i].hit
  {
    hide FlushRow, AcceptedKeys, Success;
    if ids == [] {
    } else {
      var n := |ids| - 1;
      FlushAcceptsOnlyPooled(st, ids[..n], env, onShutdown, pool);
      RowAcceptsOnlyPooled(FlushRows(st, ids[..n], env, onShutdown), ids[n], env(ids[n]), onShutdown, pool);
    }
  }

  lemma RowAcceptsOnlyPooled(st: Store, id: nat, env: RowEnv, onShutdown: bool, pool: set<string>)
    requires id < |st.rows| && AcceptedKeys(st.submitted) <= pool
    requires Success(env.reply.status) ==> st.rows[id].hit.key in pool
    ensures |FlushRow(st, id, env, onShutdown).rows| == |st.rows|
    ensures AcceptedKeys(FlushRow(st, id, env, onShutdown).submitted) <= pool
    ensures forall i :: 0 <= i < |st.rows| ==> FlushRow(st, id, env, onShutdown).rows[i].hit == st.rows[i].hit
  {
    hide PrepareRow, AcceptedKeys, Success;
    OnlyClosedBlocksLeave(st.rows[id], env, onShutdown);
    RejectedRepliesAreNotSuccess(st.rows[id], env, onShutdown);
    match PrepareRow(st.rows[id], env, onShutdown).0
    case Submit(reply) =>
      AcceptedOfAppend(st.submitted, Submission(st.rows[id].hit.key, reply), pool);
    case Reject(reply, _) =>
      AcceptedOfAppend(st.submitted, Submission(st.rows[id].hit.key, reply), pool);
    case _ =>
  }

  /** The operations still to do record a success only for keys the pool holds. */
  predicate PooledWork(st: Store, workers: seq<Worker>, pool: set<string>)
    requires WorkersOf(st, workers)
  {
    forall w, k :: 0 <= w < |workers| && 0 <= k < |workers[w].todo| ==>
      var op := workers[w].todo[k];
      op.ChangeRow? && op.action.Submit? && Success(op.action.reply.status) ==> st.rows[workers[w].id].hit.key in pool
  }

  lemma FlushWorkIsPooled(st: Store, env: nat -> RowEnv, onShutdown: bool, pool: set<string>)
    requires forall id: nat :: id < |st.rows| && Success(env(id).reply.status) ==> st.rows[id].hit.key in pool
    ensures PooledWork(st, FlushWorkers(st, env, onShutdown), pool)
  {
    hide PrepareRow;
    var workers := FlushWorkers(st, env, onShutdown);
    forall w, k | 0 <= w < |workers| && 0 <= k < |workers[w].todo| && workers[w].todo[k].ChangeRow?
                  && workers[w].todo[k].action.Submit? && Success(workers[w].todo[k].action.reply.status)
      ensures st.rows[workers[w].id].hit.key in pool
    {
      OnlyClosedBlocksLeave(st.rows[workers[w].id], env(workers[w].id), onShutdown);
    }
  }

  lemma {:induction false} ScheduleAcceptsOnlyPooled(st: Store, workers: seq<Worker>, schedule: seq<nat>, pool: set<string>)
    requires WorkersOf(st, workers) && HonestWork(workers) && PooledWork(st, workers, pool)
    requires AcceptedKeys(st.submitted) <= pool
    ensures AcceptedKeys(RunSchedule(st, workers, schedule).0.submitted) <= pool
    decreases |schedule|
  {
    if schedule == [] {
    } else {
      var w := schedule[0];
      if w < |workers| && workers[w].todo != [] {
        var id, op := workers[w].id, workers[w].todo[0];
        var next, moved := Perform(st, id, op), workers[w := workers[w].(todo := workers[w].todo[1..])];
        assert Honest(op);
        PerformAcceptsOnlyPooled(st, id, op, pool);
        assert forall i :: 0 <= i < |st.rows| ==> next.rows[i].hit == st.rows[i].hit;
        ScheduleAcceptsOnlyPooled(next, moved, schedule[1..], pool);
      } else {
        ScheduleAcceptsOnlyPooled(st, workers, schedule[1..], pool);
      }
    }
  }

  lemma PerformAcceptsOnlyPooled(st: Store, id: nat, op: Op, pool: set<string>)
    requires id < |st.rows| && Honest(op) && AcceptedKeys(st.submitted) <= pool
    requires op.ChangeRow? && op.action.Submit? && Success(op.action.reply.status) ==> st.rows[id].hit.key in pool
    ensures AcceptedKeys(Perform(st, id, op).submitted) <= pool
  {
    if op.ChangeRow? && op.action.Submit? {
      AcceptedOfAppend(st.submitted, Submission(st.rows[id].hit.key, op.action.reply), pool);
    } else if op.AppendSubmitted? {
      AcceptedOfAppend(st.submitted, Submission(op.key, op.reply), pool);
    }
  }

  lemma HitAcceptsOnlyPooled(st: Store, hit: BlockHit, env: HitEnv, pool: set<string>)
    requires AcceptedKeys(st.submitted) <= pool
    requires Success(env.reply.status) ==> hit.key in pool
    ensures AcceptedKeys(HandleHit(st, hit, env).submitted) <= pool
  {
    hide AcceptedKeys, SubmitAccepted, IsDifficultyMismatch, IsXuniWindowReject, Success;
    AcceptedOfAppend(st.submitted, Submission(hit.key, env.reply), pool);
  }

  predicate PooledOps(ops: seq<HitOp>, pool: set<string>) {
    forall i :: 0 <= i < |ops| && ops[i].LogSubmit? && Success(ops[i].reply.status) ==> ops[i].key in pool
  }

  lemma {:induction false} OpsAcceptOnlyPooled(st: Store, ops: seq<HitOp>, pool: set<string>)
    requires AcceptedKeys(st.submitted) <= pool && PooledOps(ops, pool)
    ensures AcceptedKeys(PerformHits(st, ops).submitted) <= pool
  {
    if ops == [] {
    } else {
      hide AcceptedKeys, Success;
      var n := |ops| - 1;
      assert forall i :: 0 <= i < n ==> ops[..n][i] == ops[i];
      OpsAcceptOnlyPooled(st, ops[..n], pool);
      if ops[n].LogSubmit? {
        AcceptedOfAppend(PerformHits(st, ops[..n]).submitted, Submission(ops[n].key, ops[n].reply), pool);
      }
    }
  }

  lemma HitScriptReplies(st: Store, hit: BlockHit, env: HitEnv)
    ensures forall i :: 0 <= i < |HitScript(st, hit, env)| && HitScript(st, hit, env)[i].LogSubmit? ==>
              HitScript(st, hit, env)[i].reply == env.reply && HitScript(st, hit, env)[i].key == hit.key
  {
    hide SubmitAccepted, IsDifficultyMismatch, IsXuniWindowReject, FirstPending;
  }

  lemma PartAcceptsOnlyPooled(st: Store, hit: BlockHit, env: HitEnv, done: nat, pool: set<string>)
    requires AcceptedKeys(st.submitted) <= pool
    requires Success(env.reply.status) ==> hit.key in pool
    ensures AcceptedKeys(PerformHits(st, PartOfHit(st, hit, env, done)).submitted) <= pool
  {
    HitScriptReplies(st, hit, env);
    hide AcceptedKeys, HitScript, Success, PerformHits;
    var script, part := HitScript(st, hit, env), PartOfHit(st, hit, env, done);
    assert forall i :: 0 <= i < |part| ==> part[i] == script[i];
    OpsAcceptOnlyPooled(st, part, pool);
  }

  lemma {:induction false} OnlyPooledBlocksAreAccepted(events: seq<Event>, pool: set<string>)
    requires TruthfulRun(events, pool)
    ensures AcceptedKeys(Run(events).submitted) <= pool
  {
    if events == [] {
    } else {
      var init, e := events[..|events| - 1], events[|events| - 1];
      var st := Run(init);
      OnlyPooledBlocksAreAccepted(init, pool);
      hide HandleHit;
      match e
      case Hit(hit, env) =>
        HitAcceptsOnlyPooled(st, hit, env, pool);
      case CrashInHit(hit, env, done) =>
        PartAcceptsOnlyPooled(st, hit, env, done, pool);
      case Flushing(env, onShutdown) =>
        FlushAcceptsOnlyPooled(st, PendingIds(st.rows), env, onShutdown, pool);
      case CrashInFlush(env, onShutdown, schedule) =>
        FlushWorkIsHonest(st, env, onShutdown);
        FlushWorkIsPooled(st, env, onShutdown, pool);
        ScheduleAcceptsOnlyPooled(st, FlushWorkers(st, env, onShutdown), schedule, pool);
      case Deferring(windowOpen) =>
        DeferKeepsRows(st, PendingIds(st.rows), windowOpen);
      case _ =>
    }
  }

  /** After a restart every block ever logged is in the pool or pending: the queue gives up on none. */
  lemma RestartLeavesOnlyPooledBlocksBehind(events: seq<Event>, pool: set<string>)
    requires TruthfulRun(events, pool)
    ensures LogKeys(Run(events).log) <= PendingKeys(Import(Run(events)).rows) + pool
  {
    ImportRecoversEveryBlock(Run(events));
    OnlyPooledBlocksAreAccepted(events, pool);
  }
}
