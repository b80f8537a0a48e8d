/**
  What single store operations, whole flushes and hits, and flushes and hits cut off by a crash do to the
  keys the queue of BlockQueue has promised to keep.
 */
module QueueCrashes {
  import opened Numbers
  import opened SubmitResult
  import opened BlockQueue
  import opened QueueProofs

  lemma PendingAfterAppend(rows: seq<Row>, row: Row)
    requires row.status == Pending
    ensures PendingKeys(rows + [row]) == PendingKeys(rows) + {row.hit.key}
  {
    forall k | k in PendingKeys(rows) + {row.hit.key} ensures k in PendingKeys(rows + [row]) {
      assert row in rows + [row];
      if k in PendingKeys(rows) {
        var r :| r in rows && r.status == Pending && r.hit.key == k;
        assert r in rows + [row];
      }
    }
  }

  /** Rows that stay pending under their key keep the pending keys. */
  lemma PendingKeysKept(before: seq<Row>, after: seq<Row>, closed: set<string>)
    requires |before| <= |after|
    requires forall i :: 0 <= i < |before| && before[i].status == Pending ==>
               after[i].hit.key == before[i].hit.key && (after[i].status == Pending || before[i].hit.key in closed)
    ensures PendingKeys(before) <= PendingKeys(after) + closed
  {
    forall k | k in PendingKeys(before) ensures k in PendingKeys(after) + closed {
      var i :| 0 <= i < |before| && before[i].status == Pending && before[i].hit.key == k;
      assert after[i] in after;
    }
  }

  lemma ClosedKeysGrow(a: seq<Submission>, b: seq<Submission>)
    requires a <= b
    ensures ClosedKeys(a) <= ClosedKeys(b) && AcceptedKeys(a) <= AcceptedKeys(b)
  {
    forall s | s in a ensures s in b {
      var i :| 0 <= i < |a| && a[i] == s;
      assert b[i] == s;
    }
  }

  /** Every logged key is pending, closed, or waiting for the next import. */
  predicate Covered(st: Store, orphans: set<string>) {
    LogKeys(st.log) <= PendingKeys(st.rows) + ClosedKeys(st.submitted) + orphans
  }

  lemma AcceptedAreClosed(submitted: seq<Submission>)
    ensures AcceptedKeys(submitted) <= ClosedKeys(submitted)
  {
    forall k | k in AcceptedKeys(submitted) ensures k in ClosedKeys(submitted) {
      var s :| s in submitted && Success(s.reply.status) && s.key == k;
      assert SubmitAccepted(s.reply);
    }
  }

  lemma EnqueueCovers(st: Store, hit: BlockHit, reason: string, orphans: set<string>)
    requires Covered(st, orphans)
    ensures Covered(Enqueue(st, hit, reason), orphans)
    ensures hit.key in PendingKeys(Enqueue(st, hit, reason).rows)
  {
    KeysOfAppend(st.log, LogRecord(hit, reason));
    PendingAfterAppend(st.rows, NewRow(hit, reason));
  }

  lemma SubmissionCovers(st: Store, key: string, reply: Reply, orphans: set<string>)
    requires Covered(st, orphans)
    ensures Covered(RecordDirectSubmit(st, key, reply), orphans)
    ensures SubmitAccepted(reply) ==> key in ClosedKeys(RecordDirectSubmit(st, key, reply).submitted)
  {
    var s := Submission(key, reply);
    ClosedKeysGrow(st.submitted, st.submitted + [s]);
    assert s in st.submitted + [s];
  }

  lemma RejectionCovers(st: Store, id: nat, key: string, reply: Reply, reason: string, orphans: set<string>)
    requires Covered(st, orphans)
    ensures Covered(RejectPending(st, id, key, reply, reason), orphans)
    ensures PendingKeys(st.rows) <= PendingKeys(RejectPending(st, id, key, reply, reason).rows)
  {
    var after := RejectPending(st, id, key, reply, reason);
    PendingKeysKept(st.rows, after.rows, {});
    ClosedKeysGrow(st.submitted, after.submitted);
  }

  lemma LiveRejectionCovers(st: Store, hit: BlockHit, reply: Reply, orphans: set<string>)
    requires Covered(st, orphans)
    ensures Covered(RecordLiveRejection(st, hit, reply), orphans)
    ensures hit.key in PendingKeys(RecordLiveRejection(st, hit, reply).rows)
  {
    match FirstPending(st.rows, hit.key)
    case Some(id) =>
      RejectionCovers(st, id, hit.key, reply, RESUBMISSION_REASON, orphans);
    case None =>
      var logged := LogFirstReject(st, true, hit.key, reply);
      ClosedKeysGrow(st.submitted, logged.submitted);
      EnqueueCovers(logged, hit, RESUBMISSION_REASON, orphans);
  }

  // -------------------------------------------------------------- whole flushes

  lemma MarkingCovers(st: Store, id: nat, reason: string, orphans: set<string>)
    requires Covered(st, orphans)
    ensures Covered(MarkPendingReason(st, id, reason), orphans)
  {
    PendingKeysKept(st.rows, MarkPendingReason(st, id, reason).rows, {});
  }

  lemma ClosingCovers(st: Store, id: nat, reply: Reply, orphans: set<string>)
    requires Covered(st, orphans) && (SubmitAccepted(reply) || reply == FILTERED)
    ensures Covered(MarkSubmitted(st, id, reply), orphans)
  {
    if id < |st.rows| {
      var after := MarkSubmitted(st, id, reply);
      ClosedKeysGrow(st.submitted, after.submitted);
      assert Submission(st.rows[id].hit.key, reply) in after.submitted;
      PendingKeysKept(st.rows, after.rows, ClosedKeys(after.submitted));
    }
  }

  lemma RowCovers(st: Store, id: nat, env: RowEnv, onShutdown: bool, orphans: set<string>)
    requires Covered(st, orphans) && id < |st.rows|
    ensures Covered(FlushRow(st, id, env, onShutdown), orphans)
  {
    hide Covered, PrepareRow, MarkPendingReason, MarkSubmitted, RejectPending;
    OnlyClosedBlocksLeave(st.rows[id], env, onShutdown);
    match PrepareRow(st.rows[id], env, onShutdown).0
    case NoAction =>
    case SetReason(reason) => MarkingCovers(st, id, reason, orphans);
    case Submit(reply) => ClosingCovers(st, id, reply, orphans);
    case Reject(reply, reason) => RejectionCovers(st, id, st.rows[id].hit.key, reply, reason, orphans);
  }

  lemma {:induction false} FlushCovers(st: Store, ids: seq<nat>, env: nat -> RowEnv, onShutdown: bool, orphans: set<string>)
    requires forall i :: 0 <= i < |ids| ==> ids[i] < |st.rows|
    requires Covered(st, orphans)
    ensures Covered(FlushRows(st, ids, env, onShutdown), orphans)
  {
    if ids == [] {
    } else {
      hide Covered, FlushRow;
      var n := |ids| - 1;
      FlushCovers(st, ids[..n], env, onShutdown, orphans);
      RowCovers(FlushRows(st, ids[..n], env, onShutdown), ids[n], env(ids[n]), onShutdown, orphans);
    }
  }

  lemma RejectedRepliesAreNotSuccess(row: Row, env: RowEnv, onShutdown: bool)
    ensures var action := PrepareRow(row, env, onShutdown).0;
            action.Reject? ==> !Success(action.reply.status)
  {
  }

  // -------------------------------------------- a flush cut off anywhere

  /** An operation no block can be lost by: only accepted or filtered blocks are closed. */
  predicate Honest(op: Op) {
    match op
    case ChangeRow(action) => action.Submit? ==> SubmitAccepted(action.reply) || action.reply == FILTERED
    case AppendSubmitted(_, reply) => !Success(reply.status)
    case AppendRejected(_, _) => true
  }

  predicate HonestWork(workers: seq<Worker>) {
    forall w, k :: 0 <= w < |workers| && 0 <= k < |workers[w].todo| ==> Honest(workers[w].todo[k])
  }

  lemma FlushWorkIsHonest(st: Store, env: nat -> RowEnv, onShutdown: bool)
    ensures HonestWork(FlushWorkers(st, env, onShutdown))
  {
    hide PrepareRow;
    forall id: nat | id < |st.rows|
      ensures forall op :: op in Script(st.rows[id], PrepareRow(st.rows[id], env(id), onShutdown).0) ==> Honest(op)
    {
      OnlyClosedBlocksLeave(st.rows[id], env(id), onShutdown);
      RejectedRepliesAreNotSuccess(st.rows[id], env(id), onShutdown);
    }
  }

  lemma PerformCovers(st: Store, id: nat, op: Op, orphans: set<string>)
    requires id < |st.rows| && Covered(st, orphans) && Honest(op)
    ensures Covered(Perform(st, id, op), orphans)
  {
    var after := Perform(st, id, op);
    ClosedKeysGrow(st.submitted, after.submitted);
    if op.ChangeRow? && op.action.Submit? {
      assert Submission(st.rows[id].hit.key, op.action.reply) in after.submitted;
    }
    PendingKeysKept(st.rows, after.rows, ClosedKeys(after.submitted));
  }

  lemma {:induction false} ScheduleCovers(st: Store, workers: seq<Worker>, schedule: seq<nat>, orphans: set<string>)
    requires WorkersOf(st, workers) && HonestWork(workers) && Covered(st, orphans)
    ensures Covered(RunSchedule(st, workers, schedule).0, orphans)
    decreases |schedule|
  {
    if schedule == [] {
    } else {
      hide Perform, Covered, Honest;
      var w := schedule[0];
      if w < |workers| && workers[w].todo != [] {
        PerformCovers(st, workers[w].id, workers[w].todo[0], orphans);
        ScheduleCovers(Perform(st, workers[w].id, workers[w].todo[0]),
                       workers[w := workers[w].(todo := workers[w].todo[1..])], schedule[1..], orphans);
      } else {
        ScheduleCovers(st, workers, schedule[1..], orphans);
      }
    }
  }

  // ------------------------------------------------ a hit cut off anywhere

  /** What the producer side writes, one durable operation at a time. */
  datatype HitOp =
    | LogHit(hit: BlockHit, reason: string)
    | InsertHit(hit: BlockHit, reason: string)
    | CountRow(id: nat)
    | LogReject(key: string, reply: Reply)
    | LogSubmit(key: string, reply: Reply)

  function EnqueueScript(hit: BlockHit, reason: string): seq<HitOp> {
    [LogHit(hit, reason), InsertHit(hit, reason)]
  }

  function LiveRejectionScript(st: Store, hit: BlockHit, reply: Reply): seq<HitOp> {
    var first := [LogReject(hit.key, reply), LogSubmit(hit.key, reply)];
    match FirstPending(st.rows, hit.key)
    case Some(id) => [CountRow(id)] + (if st.rows[id].rejectCount == 0 then first else [])
    case None => first + EnqueueScript(hit, RESUBMISSION_REASON)
  }

  /** The operations of `handle_hit`, in its order. */
  function HitScript(st: Store, hit: BlockHit, env: HitEnv): seq<HitOp> {
    if env.inTransition then EnqueueScript(hit, DIFFICULTY_CHANGE_REASON)
    else if env.prepared.None? then []
    else
      var block := env.prepared.value.(key := hit.key);
      if env.isXuni && !env.windowOpen then EnqueueScript(block, OUTSIDE_XUNI_WINDOW_REASON)
      else if env.shuttingDown then EnqueueScript(block, SHUTDOWN_PENDING_REASON)
      else if !env.networkUp then EnqueueScript(block, NETWORK_DOWN_REASON)
      else if SubmitAccepted(env.reply) then [LogSubmit(hit.key, env.reply)]
      else if env.reply.status == 0 || !env.networkStillUp
      then [LogSubmit(hit.key, env.reply)] + EnqueueScript(block, NETWORK_DOWN_REASON)
      else if IsDifficultyMismatch(env.reply) then EnqueueScript(block, DIFFICULTY_CHANGE_REASON)
      else if IsXuniWindowReject(env.reply) then EnqueueScript(block, OUTSIDE_XUNI_WINDOW_REASON)
      else LiveRejectionScript(st, block, env.reply)
  }

  function PerformHit(st: Store, op: HitOp): Store {
    match op
    case LogHit(hit, reason) => AppendLog(st, hit, reason)
    case InsertHit(hit, reason) => st.(rows := st.rows + [NewRow(hit, reason)])
    case CountRow(id) =>
      if id < |st.rows| then st.(rows := st.rows[id := CountReject(st.rows[id], RESUBMISSION_REASON)]) else st
    case LogReject(key, reply) => LogRejection(st, key, reply)
    case LogSubmit(key, reply) => RecordDirectSubmit(st, key, reply)
  }

  function PerformHits(st: Store, ops: seq<HitOp>): Store {
    if ops == [] then st else PerformHit(PerformHits(st, ops[..|ops| - 1]), ops[|ops| - 1])
  }

  /** A hit whose process stops after `done` of its operations. */
  function PartOfHit(st: Store, hit: BlockHit, env: HitEnv, done: nat): seq<HitOp> {
    var script := HitScript(st, hit, env);
    script[..Min(done, |script|)]
  }

  lemma PerformOne(st: Store, a: HitOp)
    ensures PerformHits(st, [a]) == PerformHit(st, a)
  {
    assert PerformHits(st, [a][..0]) == st;
  }

  lemma {:induction false} PerformBoth(st: Store, a: seq<HitOp>, b: seq<HitOp>)
    ensures PerformHits(st, a + b) == PerformHits(PerformHits(st, a), b)
    decreases |b|
  {
    if b == [] {
      assert a + b == a;
    } else {
      var n := |b| - 1;
      PerformBoth(st, a, b[..n]);
      assert (a + b)[..|a + b| - 1] == a + b[..n];
    }
  }

  lemma EnqueueInTwo(st: Store, hit: BlockHit, reason: string)
    ensures PerformHits(st, EnqueueScript(hit, reason)) == Enqueue(st, hit, reason)
  {
    hide PerformHits;
    assert EnqueueScript(hit, reason) == [LogHit(hit, reason)] + [InsertHit(hit, reason)];
    PerformBoth(st, [LogHit(hit, reason)], [InsertHit(hit, reason)]);
    PerformOne(st, LogHit(hit, reason));
    PerformOne(PerformHits(st, [LogHit(hit, reason)]), InsertHit(hit, reason));
  }

  lemma FirstRejectInTwo(st: Store, key: string, reply: Reply)
    ensures PerformHits(st, [LogReject(key, reply), LogSubmit(key, reply)]) == LogFirstReject(st, true, key, reply)
  {
    hide PerformHits;
    assert [LogReject(key, reply), LogSubmit(key, reply)] == [LogReject(key, reply)] + [LogSubmit(key, reply)];
    PerformBoth(st, [LogReject(key, reply)], [LogSubmit(key, reply)]);
    PerformOne(st, LogReject(key, reply));
    PerformOne(PerformHits(st, [LogReject(key, reply)]), LogSubmit(key, reply));
  }

  lemma WholeLiveRejection(st: Store, hit: BlockHit, reply: Reply)
    ensures PerformHits(st, LiveRejectionScript(st, hit, reply)) == RecordLiveRejection(st, hit, reply)
  {
    hide PerformHits;
    var first := [LogReject(hit.key, reply), LogSubmit(hit.key, reply)];
    match FirstPending(st.rows, hit.key)
    case Some(id) =>
      PerformOne(st, CountRow(id));
      PerformBoth(st, [CountRow(id)], first);
      FirstRejectInTwo(PerformHit(st, CountRow(id)), hit.key, reply);
      assert [CountRow(id)] + [] == [CountRow(id)];
    case None =>
      PerformBoth(st, first, EnqueueScript(hit, RESUBMISSION_REASON));
      FirstRejectInTwo(st, hit.key, reply);
      EnqueueInTwo(LogFirstReject(st, true, hit.key, reply), hit, RESUBMISSION_REASON);
  }

  /** Uninterrupted, the operations are the hit. */
  lemma WholeHit(st: Store, hit: BlockHit, env: HitEnv)
    ensures PerformHits(st, HitScript(st, hit, env)) == HandleHit(st, hit, env)
  {
    hide PerformHits, Enqueue, EnqueueScript, LiveRejectionScript, RecordLiveRejection, RecordDirectSubmit;
    if env.inTransition {
      EnqueueInTwo(st, hit, DIFFICULTY_CHANGE_REASON);
    } else if env.prepared.None? {
      assert PerformHits(st, []) == st by { NoOperations(st); }
    } else {
      var block := env.prepared.value.(key := hit.key);
      var submit := LogSubmit(hit.key, env.reply);
      EnqueueInTwo(st, block, OUTSIDE_XUNI_WINDOW_REASON);
      EnqueueInTwo(st, block, SHUTDOWN_PENDING_REASON);
      EnqueueInTwo(st, block, NETWORK_DOWN_REASON);
      EnqueueInTwo(st, block, DIFFICULTY_CHANGE_REASON);
      PerformOne(st, submit);
      PerformBoth(st, [submit], EnqueueScript(block, NETWORK_DOWN_REASON));
      EnqueueInTwo(PerformHit(st, submit), block, NETWORK_DOWN_REASON);
      WholeLiveRejection(st, block, env.reply);
    }
  }

  lemma NoOperations(st: Store)
    ensures PerformHits(st, []) == st
  {
  }

  /** Only the operation after a log entry may be its insert, and every insert follows its log entry. */
  predicate Paired(ops: seq<HitOp>) {
    forall i :: 0 <= i < |ops| ==> PairedAt(ops, i)
  }

  predicate PairedAt(ops: seq<HitOp>, i: nat)
    requires i < |ops|
  {
    && (ops[i].LogHit? && i + 1 < |ops| ==> ops[i + 1] == InsertHit(ops[i].hit, ops[i].reason))
    && (ops[i].InsertHit? ==> i > 0 && ops[i - 1] == LogHit(ops[i].hit, ops[i].reason))
  }

  lemma PairedPart(ops: seq<HitOp>, n: nat)
    requires Paired(ops) && n <= |ops|
    ensures Paired(ops[..n])
    ensures 0 < n ==> PairedAt(ops, n - 1)
    ensures 1 < n ==> PairedAt(ops, n - 2)
  {
    forall i | 0 <= i < n ensures PairedAt(ops[..n], i) {
      assert PairedAt(ops, i);
    }
  }

  lemma HitScriptIsPaired(st: Store, hit: BlockHit, env: HitEnv)
    ensures Paired(HitScript(st, hit, env))
  {
    hide SubmitAccepted, IsDifficultyMismatch, IsXuniWindowReject, FirstPending;
  }

  /** The key a crash leaves in the log without a row. */
  function OrphansOf(ops: seq<HitOp>): set<string> {
    if ops != [] && ops[|ops| - 1].LogHit? then {ops[|ops| - 1].hit.key} else {}
  }

  lemma HitOpCovers(st: Store, op: HitOp, orphans: set<string>)
    requires Covered(st, orphans)
    ensures !op.LogHit? ==> Covered(PerformHit(st, op), orphans)
    ensures op.LogHit? ==> Covered(PerformHit(st, op), orphans + {op.hit.key})
    ensures op.InsertHit? ==> Covered(PerformHit(st, op), orphans - {op.hit.key})
  {
    match op
    case LogHit(hit, reason) => KeysOfAppend(st.log, LogRecord(hit, reason));
    case InsertHit(hit, reason) => PendingAfterAppend(st.rows, NewRow(hit, reason));
    case CountRow(id) => PendingKeysKept(st.rows, PerformHit(st, op).rows, {});
    case LogSubmit(key, reply) => ClosedKeysGrow(st.submitted, PerformHit(st, op).submitted);
    case LogReject(_, _) =>
  }

  lemma CoveredByMore(st: Store, few: set<string>, more: set<string>)
    requires Covered(st, few) && few <= more
    ensures Covered(st, more)
  {
  }

  /** Whatever part of a hit was done, only its own key can wait for the next import. */
  lemma {:induction false} HitOpsCover(st: Store, ops: seq<HitOp>, orphans: set<string>)
    requires Covered(st, orphans) && Paired(ops)
    ensures Covered(PerformHits(st, ops), orphans + OrphansOf(ops))
  {
    hide Covered, PerformHit;
    if ops == [] {
      NoOperations(st);
      CoveredByMore(st, orphans, orphans + OrphansOf(ops));
    } else {
      var init, last := ops[..|ops| - 1], ops[|ops| - 1];
      PairedPart(ops, |ops| - 1);
      PairedPart(ops, |ops|);
      HitOpsCover(st, init, orphans);
      var before := PerformHits(st, init);
      HitOpCovers(before, last, orphans + OrphansOf(init));
      if last.LogHit? {
        assert OrphansOf(init) == {};
        CoveredByMore(PerformHit(before, last), orphans + OrphansOf(init) + {last.hit.key}, orphans + OrphansOf(ops));
      } else if last.InsertHit? {
        assert OrphansOf(init) == {last.hit.key};
        CoveredByMore(PerformHit(before, last), orphans + OrphansOf(init) - {last.hit.key}, orphans + OrphansOf(ops));
      } else {
        assert OrphansOf(init) == {};
        CoveredByMore(PerformHit(before, last), orphans + OrphansOf(init), orphans + OrphansOf(ops));
      }
    }
  }

  lemma PartCovers(st: Store, hit: BlockHit, env: HitEnv, done: nat, orphans: set<string>)
    requires Covered(st, orphans)
    ensures Covered(PerformHits(st, PartOfHit(st, hit, env, done)), orphans + OrphansOf(PartOfHit(st, hit, env, done)))
  {
    HitScriptIsPaired(st, hit, env);
    hide Covered, HitScript, PerformHits;
    var script := HitScript(st, hit, env);
    PairedPart(script, Min(done, |script|));
    HitOpsCover(st, PartOfHit(st, hit, env, done), orphans);
  }

  /** Keys the queue will not forget: logged, in a row, or closed. */
  function Remembered(st: Store): set<string> {
    LogKeys(st.log) + PendingKeys(st.rows) + ClosedKeys(st.submitted)
  }

  /** The operation that makes a key last. */
  predicate Secures(op: HitOp) {
    op.LogHit? || (op.LogSubmit? && (SubmitAccepted(op.reply) || op.reply == FILTERED))
  }

  function KeyOf(op: HitOp, other: string): string {
    match op
    case LogHit(hit, _) => hit.key
    case InsertHit(hit, _) => hit.key
    case LogReject(key, _) => key
    case LogSubmit(key, _) => key
    case CountRow(_) => other
  }

  lemma PendingKeysSame(before: seq<Row>, after: seq<Row>)
    requires |before| == |after|
    requires forall i :: 0 <= i < |before| ==>
               after[i].hit.key == before[i].hit.key && after[i].status == before[i].status
    ensures PendingKeys(before) == PendingKeys(after)
  {
    PendingKeysKept(before, after, {});
    PendingKeysKept(after, before, {});
  }

  lemma ClosedOfAppend(submitted: seq<Submission>, key: string, reply: Reply)
    ensures ClosedKeys(submitted + [Submission(key, reply)])
         == ClosedKeys(submitted) + (if SubmitAccepted(reply) || reply == FILTERED then {key} else {})
  {
    hide SubmitAccepted;
    var s := Submission(key, reply);
    ClosedKeysGrow(submitted, submitted + [s]);
    assert s in submitted + [s];
  }

  lemma OpRemembers(st: Store, op: HitOp, key: string)
    requires KeyOf(op, key) == key
    ensures Remembered(PerformHit(st, op))
         == Remembered(st) + (if Secures(op) || op.InsertHit? then {key} else {})
  {
    hide SubmitAccepted, LogKeys, PendingKeys, ClosedKeys;
    match op
    case LogHit(hit, reason) => KeysOfAppend(st.log, LogRecord(hit, reason));
    case InsertHit(hit, reason) => PendingAfterAppend(st.rows, NewRow(hit, reason));
    case CountRow(id) => PendingKeysSame(st.rows, PerformHit(st, op).rows);
    case LogSubmit(_, reply) => ClosedOfAppend(st.submitted, key, reply);
    case LogReject(_, _) =>
  }

  lemma {:induction false} OpsRemember(st: Store, ops: seq<HitOp>, key: string)
    requires Paired(ops) && forall i :: 0 <= i < |ops| ==> KeyOf(ops[i], key) == key
    ensures key in Remembered(PerformHits(st, ops))
       <==> key in Remembered(st) || exists i :: 0 <= i < |ops| && Secures(ops[i])
  {
    hide Remembered, PerformHit, Secures;
    if ops == [] {
      NoOperations(st);
    } else {
      var n := |ops| - 1;
      PairedPart(ops, n);
      OpsRemember(st, ops[..n], key);
      OpRemembers(PerformHits(st, ops[..n]), ops[n], key);
      SecuredBefore(ops, n);
    }
  }

  lemma SecuredBefore(ops: seq<HitOp>, n: nat)
    requires Paired(ops) && n == |ops| - 1
    ensures (exists i :: 0 <= i < |ops| && Secures(ops[i])) <==> Secures(ops[n]) || exists i :: 0 <= i < n && Secures(ops[..n][i])
    ensures ops[n].InsertHit? ==> exists i :: 0 <= i < n && Secures(ops[..n][i])
  {
    PairedPart(ops, |ops|);
    if ops[n].InsertHit? {
      assert Secures(ops[..n][n - 1]);
    }
    forall i | 0 <= i < n ensures Secures(ops[i]) <==> Secures(ops[..n][i]) {
      assert ops[i] == ops[..n][i];
    }
  }

  lemma HitScriptKeys(st: Store, hit: BlockHit, env: HitEnv)
    ensures forall i :: 0 <= i < |HitScript(st, hit, env)| ==> KeyOf(HitScript(st, hit, env)[i], hit.key) == hit.key
  {
    hide SubmitAccepted, IsDifficultyMismatch, IsXuniWindowReject, FirstPending;
  }

  /**
    A crash in the middle of a hit forgets a new block exactly when it comes before the log entry and before
    the pool's acceptance was recorded.
   */
  lemma CrashForgetsExactly(st: Store, hit: BlockHit, env: HitEnv, done: nat)
    ensures hit.key in Remembered(PerformHits(st, PartOfHit(st, hit, env, done)))
       <==> hit.key in Remembered(st)
            || exists i :: 0 <= i < |PartOfHit(st, hit, env, done)| && Secures(PartOfHit(st, hit, env, done)[i])
  {
    HitScriptIsPaired(st, hit, env);
    HitScriptKeys(st, hit, env);
    hide HitScript, Remembered, PerformHits, Secures;
    var part := PartOfHit(st, hit, env, done);
    assert forall i :: 0 <= i < |part| ==> part[i] == HitScript(st, hit, env)[i];
    PairedPart(HitScript(st, hit, env), |part|);
    OpsRemember(st, part, hit.key);
  }
}
