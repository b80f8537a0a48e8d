/** The store, the flusher and the producer side of the queue, as the objects that update it in place. */
module BlockStore {
  import opened Numbers
  import opened SubmitResult
  import opened BlockQueue
  import opened QueueProofs

  /** Rows that are no longer what they were. */
  function Changed(before: seq<Row>, after: seq<Row>): nat
    requires |before| == |after|
  {
    if before == [] then 0
    else
      var n := |before| - 1;
      Changed(before[..n], after[..n]) + (if before[n] != after[n] then 1 else 0)
  }

  lemma {:induction false} NothingChanged(rows: seq<Row>)
    ensures Changed(rows, rows) == 0
  {
    if rows == [] {
    } else {
      NothingChanged(rows[..|rows| - 1]);
    }
  }

  lemma {:induction false} OneMoreChanged(before: seq<Row>, after: seq<Row>, i: nat, row: Row)
    requires i < |before| == |after| && after[i] == before[i] && row != before[i]
    ensures Changed(before, after[i := row]) == Changed(before, after) + 1
  {
    var n := |before| - 1;
    if i == n {
      assert after[i := row][..n] == after[..n];
    } else {
      OneMoreChanged(before[..n], after[..n], i, row);
      assert after[i := row][..n] == after[..n][i := row];
    }
  }

  lemma NothingImportedYet(known: set<string>)
    ensures Fresh([], known) == [] && LogKeys([]) == {} && ImportedRows([]) == []
  {
  }

  lemma FreshStep(log: seq<LogRecord>, i: nat, known: set<string>)
    requires i < |log|
    ensures Fresh(log[..i + 1], known)
         == if log[i].hit.key in known || log[i].hit.key in LogKeys(Fresh(log[..i], known)) then Fresh(log[..i], known)
            else Fresh(log[..i], known) + [log[i]]
  {
    assert log[..i + 1][..i] == log[..i];
  }

  lemma ImportedRowsOfAppend(records: seq<LogRecord>, last: LogRecord)
    ensures ImportedRows(records + [last]) == ImportedRows(records) + [ImportedRow(last)]
    ensures LogKeys(records + [last]) == LogKeys(records) + {last.hit.key}
  {
    KeysOfAppend(records, last);
  }

  lemma {:induction false} ImportedRowsArePending(rows: seq<Row>, records: seq<LogRecord>)
    ensures PendingCount(rows + ImportedRows(records)) == PendingCount(rows) + |records|
  {
    if records == [] {
      assert rows + ImportedRows(records) == rows;
    } else {
      ImportedRowsSplit(rows, records);
      ImportedRowsArePending(rows, records[..|records| - 1]);
      ImportedRowIsPending(records[|records| - 1]);
    }
  }

  class BlockStore {
    var jsonl: seq<LogRecord>
    var pendingBlocks: seq<Row>
    var submittedBlocks: seq<Submission>
    var rejectedJsonl: seq<Submission>

    function State(): Store
      reads this
    {
      Store(jsonl, pendingBlocks, submittedBlocks, rejectedJsonl)
    }

    constructor ()
      ensures State() == EMPTY
    {
      jsonl, pendingBlocks, submittedBlocks, rejectedJsonl := [], [], [], [];
    }

    method Enqueue(hit: BlockHit, reason: string) returns (id: nat)
      modifies this
      ensures State() == BlockQueue.Enqueue(old(State()), hit, reason)
      ensures id < |pendingBlocks| && pendingBlocks[id].hit == hit
    {
      jsonl := jsonl + [LogRecord(hit, reason)];
      pendingBlocks := pendingBlocks + [NewRow(hit, reason)];
      id := |pendingBlocks| - 1;
    }

    method LogRejection(hit: BlockHit, reply: Reply)
      modifies this`rejectedJsonl
      ensures State() == BlockQueue.LogRejection(old(State()), hit.key, reply)
    {
      rejectedJsonl := rejectedJsonl + [Submission(hit.key, reply)];
    }

    method RecordDirectSubmit(hit: BlockHit, reply: Reply)
      modifies this`submittedBlocks
      ensures State() == BlockQueue.RecordDirectSubmit(old(State()), hit.key, reply)
    {
      submittedBlocks := submittedBlocks + [Submission(hit.key, reply)];
    }

    method MarkPendingReason(id: nat, reason: string)
      modifies this`pendingBlocks
      ensures State() == BlockQueue.MarkPendingReason(old(State()), id, reason)
    {
      if id < |pendingBlocks| && pendingBlocks[id].status == Pending {
        pendingBlocks := pendingBlocks[id := pendingBlocks[id].(queueReason := reason)];
      }
    }

    method MarkSubmitted(id: nat, reply: Reply)
      modifies this
      ensures State() == BlockQueue.MarkSubmitted(old(State()), id, reply)
    {
      if id >= |pendingBlocks| {
        return;
      }
      var row := pendingBlocks[id];
      pendingBlocks := pendingBlocks[id := row.(status := Submitted)];
      submittedBlocks := submittedBlocks + [Submission(row.hit.key, reply)];
    }

    /** Reject a queued row, or queue a block the pool refused live. Returns whether a row was added. */
    method RecordRejection(hit: BlockHit, reply: Reply, pendingId: Option<nat>, queueReason: Option<string>)
      returns (added: bool)
      modifies this
      ensures pendingId.Some? ==>
                && !added
                && State() == RejectPending(old(State()), pendingId.value, hit.key, reply,
                                            if queueReason.Some? then queueReason.value else RESUBMISSION_REASON)
      ensures pendingId.None? ==> State() == RecordLiveRejection(old(State()), hit, reply)
      ensures pendingId.None? ==> (added <==> hit.key !in PendingKeys(old(pendingBlocks)))
    {
      if pendingId.Some? {
        var id := pendingId.value;
        if id >= |pendingBlocks| || pendingBlocks[id].status != Pending {
          return false;
        }
        var firstReject := pendingBlocks[id].rejectCount == 0;
        var reason := if queueReason.Some? then queueReason.value else RESUBMISSION_REASON;
        pendingBlocks := pendingBlocks[id := CountReject(pendingBlocks[id], reason)];
        if firstReject {
          LogRejection(hit, reply);
          RecordDirectSubmit(hit, reply);
        }
        return false;
      }
      var existing := FirstPending(pendingBlocks, hit.key);
      if existing.Some? {
        var firstReject := pendingBlocks[existing.value].rejectCount == 0;
        pendingBlocks := pendingBlocks[existing.value := CountReject(pendingBlocks[existing.value], RESUBMISSION_REASON)];
        if firstReject {
          LogRejection(hit, reply);
          RecordDirectSubmit(hit, reply);
        }
        return false;
      }
      LogRejection(hit, reply);
      RecordDirectSubmit(hit, reply);
      var id := Enqueue(hit, RESUBMISSION_REASON);
      added := true;
    }

    /** Re-queue logged blocks that are neither pending nor accepted; a dry run only counts them. */
    method ImportPendingFromJsonl(dryRun: bool) returns (imported: nat)
      modifies this`pendingBlocks
      ensures State() == if dryRun then old(State()) else Import(old(State()))
      ensures imported == |Fresh(jsonl, KnownKeys(old(State())))|
      ensures !dryRun ==> imported == PendingCount(pendingBlocks) - PendingCount(old(pendingBlocks))
    {
      hide Fresh, ImportedRows, ImportedRow, PendingCount, PendingKeys, AcceptedKeys, LogKeys;
      var accepted := AcceptedKeys(submittedBlocks);
      var pending := PendingKeys(pendingBlocks);
      ghost var known := KnownKeys(State());
      var seen: set<string> := {};
      imported := 0;
      NothingImportedYet(known);
      for i := 0 to |jsonl|
        invariant seen == LogKeys(Fresh(jsonl[..i], known))
        invariant known <= pending + accepted <= known + seen
        invariant imported == |Fresh(jsonl[..i], known)|
        invariant pendingBlocks == old(pendingBlocks) + (if dryRun then [] else ImportedRows(Fresh(jsonl[..i], known)))
      {
        var record := jsonl[i];
        FreshStep(jsonl, i, known);
        if record.hit.key in seen || record.hit.key in pending || record.hit.key in accepted {
          continue;
        }
        ImportedRowsOfAppend(Fresh(jsonl[..i], known), record);
        seen := seen + {record.hit.key};
        imported := imported + 1;
        if dryRun {
          continue;
        }
        pendingBlocks := pendingBlocks + [ImportedRow(record)];
        pending := pending + {record.hit.key};
      }
      assert jsonl[..|jsonl|] == jsonl;
      ImportedRowsArePending(old(pendingBlocks), Fresh(jsonl, known));
    }

    method ReclassifyPending(classify: (string, string) -> string) returns (updated: nat)
      modifies this`pendingBlocks
      ensures State() == Reclassify(old(State()), classify)
      ensures updated == Changed(old(pendingBlocks), pendingBlocks)
    {
      updated := 0;
      NothingChanged(pendingBlocks);
      for i := 0 to |pendingBlocks|
        invariant |pendingBlocks| == |old(pendingBlocks)|
        invariant forall k :: 0 <= k < i ==> pendingBlocks[k] == Reclassified(old(pendingBlocks)[k], classify)
        invariant forall k :: i <= k < |pendingBlocks| ==> pendingBlocks[k] == old(pendingBlocks)[k]
        invariant updated == Changed(old(pendingBlocks), pendingBlocks)
      {
        var row := pendingBlocks[i];
        if row.status != Pending {
          continue;
        }
        var newType := classify(row.hit.hashStr, row.hit.blockType);
        if newType == "OTHER" || newType == row.hit.blockType {
          continue;
        }
        OneMoreChanged(old(pendingBlocks), pendingBlocks, i, row.(hit := row.hit.(blockType := newType)));
        pendingBlocks := pendingBlocks[i := row.(hit := row.hit.(blockType := newType))];
        updated := updated + 1;
      }
    }

    method ListPending() returns (ids: seq<nat>)
      ensures ids == PendingIds(pendingBlocks)
    {
      ids := PendingIds(pendingBlocks);
    }
  }

  // ------------------------------------------------------------------ flusher

  function CountOf(outcomes: seq<Outcome>, o: Outcome): nat {
    if outcomes == [] then 0
    else CountOf(outcomes[..|outcomes| - 1], o) + (if outcomes[|outcomes| - 1] == o then 1 else 0)
  }

  lemma {:induction false} DeparturesAreFlushedOrDropped(
    rows: seq<Row>, ids: seq<nat>, env: nat -> RowEnv, onShutdown: bool, outcomes: seq<Outcome>)
    requires |outcomes| == |ids|
    requires forall i :: 0 <= i < |ids| ==> ids[i] < |rows| && outcomes[i] == PrepareRow(rows[ids[i]], env(ids[i]), onShutdown).1
    ensures Departures(rows, ids, env, onShutdown) == CountOf(outcomes, Flushed) + CountOf(outcomes, Dropped)
  {
    if ids == [] {
    } else {
      var n := |ids| - 1;
      DeparturesAreFlushedOrDropped(rows, ids[..n], env, onShutdown, outcomes[..n]);
    }
  }

  lemma DeferNone(st: Store, windowOpen: nat -> bool)
    ensures DeferRows(st, [], windowOpen) == st
  {
  }

  lemma DeferOneMore(st: Store, ids: seq<nat>, i: nat, windowOpen: nat -> bool)
    requires (forall k :: 0 <= k < |ids| ==> ids[k] < |st.rows|) && i < |ids|
    ensures DeferRows(st, ids[..i + 1], windowOpen)
         == BlockQueue.MarkPendingReason(DeferRows(st, ids[..i], windowOpen), ids[i],
                                         DeferReason(st.rows[ids[i]], windowOpen(ids[i])))
  {
    assert ids[..i + 1][..i] == ids[..i];
  }

  lemma NoRowsToFlush(st: Store, env: nat -> RowEnv, onShutdown: bool)
    ensures FlushRows(st, [], env, onShutdown) == st
  {
  }

  lemma NextRowIsUntouched(st: Store, ids: seq<nat>, i: nat, env: nat -> RowEnv, onShutdown: bool)
    requires forall k :: 0 <= k < |ids| ==> ids[k] < |st.rows|
    requires forall k, l :: 0 <= k < l < |ids| ==> ids[k] != ids[l]
    requires i < |ids|
    ensures FlushRows(st, ids[..i], env, onShutdown).rows[ids[i]] == st.rows[ids[i]]
    ensures FlushRows(st, ids[..i + 1], env, onShutdown)
         == FlushRow(FlushRows(st, ids[..i], env, onShutdown), ids[i], env(ids[i]), onShutdown)
  {
    hide FlushRow, RowAfter, BlockQueue.PrepareRow;
    assert ids[..i + 1][..i] == ids[..i];
    assert ids[i] !in ids[..i];
    FlushLeavesRows(st, ids[..i], env, onShutdown);
  }

  class QueueFlusher {
    const store: BlockStore
    var acceptedFlush: nat
    var droppedFlush: nat

    constructor (store: BlockStore)
      ensures this.store == store && acceptedFlush == 0 && droppedFlush == 0
    {
      this.store := store;
      acceptedFlush, droppedFlush := 0, 0;
    }

    /** Decide one row and change it through the store. */
    method PrepareRow(id: nat, env: RowEnv, onShutdown: bool) returns (outcome: Outcome)
      requires id < |store.pendingBlocks| && store.pendingBlocks[id].status == Pending
      modifies store
      ensures store.State() == FlushRow(old(store.State()), id, env, onShutdown)
      ensures outcome == BlockQueue.PrepareRow(old(store.pendingBlocks[id]), env, onShutdown).1
    {
      var row := store.pendingBlocks[id];
      var cost := BlockCost(row, env);
      if cost.Some? && cost.value != env.difficulty {
        return WaitingDifficulty;
      }
      if env.verifiedType.None? {
        store.MarkSubmitted(id, FILTERED);
        return Dropped;
      }
      if !ReadyToFlush(env.verifiedType.value, env.windowOpen) {
        if onShutdown {
          store.MarkPendingReason(id, OUTSIDE_XUNI_WINDOW_REASON);
        }
        return WaitingXuni;
      }
      if SubmitAccepted(env.reply) {
        store.MarkSubmitted(id, env.reply);
        return Flushed;
      }
      if IsDifficultyMismatch(env.reply) {
        store.MarkPendingReason(id, DIFFICULTY_CHANGE_REASON);
        return WaitingDifficulty;
      }
      if IsXuniWindowReject(env.reply) {
        store.MarkPendingReason(id, OUTSIDE_XUNI_WINDOW_REASON);
        return WaitingXuni;
      }
      var held := onShutdown && Upper(env.verifiedType.value) in {"XNM", "XBLK"};
      if CountsAsReject(env.reply) {
        var added := store.RecordRejection(
          row.hit, env.reply, Some(id), Some(if held then SHUTDOWN_PENDING_REASON else RESUBMISSION_REASON));
        return Failed(held, true);
      }
      if held {
        store.MarkPendingReason(id, SHUTDOWN_PENDING_REASON);
      }
      outcome := Failed(held, false);
    }

    /** Run the rows of a snapshot through the pool, one worker after the other. */
    method PrepareAll(ids: seq<nat>, env: nat -> RowEnv, onShutdown: bool) returns (outcomes: seq<Outcome>)
      requires ids == PendingIds(store.pendingBlocks)
      modifies store
      ensures store.State() == BlockQueue.Flush(old(store.State()), env, onShutdown)
      ensures |outcomes| == |ids|
      ensures forall k :: 0 <= k < |ids| ==>
                outcomes[k] == BlockQueue.PrepareRow(old(store.pendingBlocks)[ids[k]], env(ids[k]), onShutdown).1
    {
      hide BlockQueue.PrepareRow, Act, FlushRows, FlushRow, PendingIds;
      NoRowsToFlush(store.State(), env, onShutdown);
      ghost var before := store.State();
      outcomes := [];
      for i := 0 to |ids|
        invariant |outcomes| == i
        invariant store.State() == FlushRows(before, ids[..i], env, onShutdown)
        invariant forall k :: 0 <= k < i ==>
                    outcomes[k] == BlockQueue.PrepareRow(before.rows[ids[k]], env(ids[k]), onShutdown).1
      {
        NextRowIsUntouched(before, ids, i, env, onShutdown);
        var outcome := PrepareRow(ids[i], env(ids[i]), onShutdown);
        outcomes := outcomes + [outcome];
      }
      assert ids[..|ids|] == ids;
    }

    method ApplyOutcomes(outcomes: seq<Outcome>) returns (flushed: nat)
      modifies this
      ensures flushed == CountOf(outcomes, Flushed)
      ensures acceptedFlush == old(acceptedFlush) + flushed
      ensures droppedFlush == old(droppedFlush) + CountOf(outcomes, Dropped)
    {
      flushed := 0;
      for i := 0 to |outcomes|
        invariant flushed == CountOf(outcomes[..i], Flushed)
        invariant acceptedFlush == old(acceptedFlush) + flushed
        invariant droppedFlush == old(droppedFlush) + CountOf(outcomes[..i], Dropped)
      {
        assert outcomes[..i + 1][..i] == outcomes[..i];
        match outcomes[i]
        case Dropped =>
          droppedFlush := droppedFlush + 1;
        case Flushed =>
          acceptedFlush := acceptedFlush + 1;
          flushed := flushed + 1;
        case _ =>
      }
      assert outcomes[..|outcomes|] == outcomes;
    }

    /** Submit every pending row once and count what left the queue. */
    method Flush(env: nat -> RowEnv, onShutdown: bool) returns (flushed: nat)
      modifies this, store
      ensures store.State() == BlockQueue.Flush(old(store.State()), env, onShutdown)
      ensures acceptedFlush == old(acceptedFlush) + flushed
      ensures PendingCount(store.pendingBlocks)
           == PendingCount(old(store.pendingBlocks)) - flushed - (droppedFlush - old(droppedFlush))
    {
      hide BlockQueue.PrepareRow, FlushRows;
      ghost var before := store.State();
      var ids := store.ListPending();
      var outcomes := PrepareAll(ids, env, onShutdown);
      FlushRowsByRow(before, ids, env, onShutdown);
      DeparturesAreFlushedOrDropped(before.rows, ids, env, onShutdown, outcomes);
      flushed := ApplyOutcomes(outcomes);
    }

    /** Mark every pending row for the next session without contacting the pool. */
    method DeferToNextStart(windowOpen: nat -> bool) returns (deferred: nat)
      modifies store
      ensures store.State() == BlockQueue.DeferToNextStart(old(store.State()), windowOpen)
      ensures deferred == PendingCount(old(store.pendingBlocks))
    {
      hide DeferRows, PendingIds, DeferReason;
      ghost var before := store.State();
      var rows := store.pendingBlocks;
      var ids := store.ListPending();
      DeferNone(before, windowOpen);
      for i := 0 to |ids|
        invariant store.State() == DeferRows(before, ids[..i], windowOpen)
      {
        DeferOneMore(before, ids, i, windowOpen);
        store.MarkPendingReason(ids[i], DeferReason(rows[ids[i]], windowOpen(ids[i])));
      }
      assert ids[..|ids|] == ids;
      deferred := |ids|;
    }
  }

  // ------------------------------------------------------------------ producer

  /** The supervisor's handling of a hit, as far as it touches the store. */
  class HitHandler {
    const store: BlockStore

    constructor (store: BlockStore)
      ensures this.store == store
    {
      this.store := store;
    }

    method QueueHit(hit: BlockHit, reason: string)
      modifies store
      ensures store.State() == BlockQueue.Enqueue(old(store.State()), hit, reason)
    {
      var id := store.Enqueue(hit, reason);
    }

    method HandleHit(hit: BlockHit, env: HitEnv)
      modifies store
      ensures store.State() == BlockQueue.HandleHit(old(store.State()), hit, env)
    {
      if env.inTransition {
        QueueHit(hit, DIFFICULTY_CHANGE_REASON);
        return;
      }
      if env.prepared.None? {
        return;
      }
      var block := env.prepared.value.(key := hit.key);
      if env.shuttingDown {
        QueueHit(block, if env.isXuni && !env.windowOpen then OUTSIDE_XUNI_WINDOW_REASON else SHUTDOWN_PENDING_REASON);
        return;
      }
      if env.isXuni && !env.windowOpen {
        QueueHit(block, OUTSIDE_XUNI_WINDOW_REASON);
        return;
      }
      if !env.networkUp {
        QueueHit(block, NETWORK_DOWN_REASON);
        return;
      }
      if SubmitAccepted(env.reply) {
        store.RecordDirectSubmit(block, env.reply);
        return;
      }
      if env.reply.status == 0 || !env.networkStillUp {
        store.RecordDirectSubmit(block, env.reply);
        QueueHit(block, NETWORK_DOWN_REASON);
        return;
      }
      if IsDifficultyMismatch(env.reply) {
        QueueHit(block, DIFFICULTY_CHANGE_REASON);
        return;
      }
      if IsXuniWindowReject(env.reply) {
        QueueHit(block, OUTSIDE_XUNI_WINDOW_REASON);
        return;
      }
      var added := store.RecordRejection(block, env.reply, None, None);
    }
  }
}
