/** What the queue decides, in the terms of the row, its surroundings and the pool's reply. */
module QueueDecisions {
  import opened Numbers
  import opened SubmitResult
  import opened BlockQueue
  import opened QueueProofs

  // ------------------------------------------------------------- flushed rows

  /** The memory cost a row is known by: its own, or its hash's when it carries none. */
  predicate SameDifficulty(row: Row, env: RowEnv) {
    if row.hit.memoryCost.Some? && row.hit.memoryCost.value != 0 then row.hit.memoryCost.value == env.difficulty
    else env.hashCost.Some? ==> env.hashCost.value == env.difficulty
  }

  predicate XuniClosed(env: RowEnv) {
    env.verifiedType.Some? && Upper(env.verifiedType.value) == "XUNI" && !env.windowOpen
  }

  /** Of the network's difficulty, confirmed by the CPU check, and not a XUNI block outside its window. */
  predicate Asked(row: Row, env: RowEnv) {
    SameDifficulty(row, env) && env.verifiedType.Some? && !XuniClosed(env)
  }

  predicate HeldAtShutdown(env: RowEnv, onShutdown: bool) {
    onShutdown && env.verifiedType.Some? && (Upper(env.verifiedType.value) == "XNM" || Upper(env.verifiedType.value) == "XBLK")
  }

  /** The type's name is read in any letter case, and in no other way changed. */
  lemma TypesIgnoreCase(s: string, name: string)
    requires forall i :: 0 <= i < |name| ==> !('a' <= name[i] <= 'z')
    ensures Upper(s) == name <==> |s| == |name| && forall i :: 0 <= i < |s| ==>
              s[i] == name[i] || ('A' <= name[i] <= 'Z' && s[i] as int == name[i] as int + 32)
  {
    if |s| == |name| {
      assert forall i :: 0 <= i < |s| ==> Upper(s)[i] == if 'a' <= s[i] <= 'z' then (s[i] as int - 32) as char else s[i];
    }
  }

  /** The pool's reply decides a row exactly when the row was in a state to be submitted. */
  lemma PoolDecidesExactly(row: Row, env: RowEnv, onShutdown: bool)
    ensures Asked(row, env) <==>
              exists a, b :: PrepareRow(row, env.(reply := a), onShutdown) != PrepareRow(row, env.(reply := b), onShutdown)
  {
    if Asked(row, env) {
      var yes, no := Reply(200, ""), Reply(0, "");
      assert SubmitAccepted(yes) && !SubmitAccepted(no);
      assert PrepareRow(row, env.(reply := yes), onShutdown).1 == Flushed;
      assert PrepareRow(row, env.(reply := no), onShutdown).1 != Flushed;
    } else {
      hide Classify, CountsAsReject, SubmitAccepted;
      forall a, b
        ensures PrepareRow(row, env.(reply := a), onShutdown) == PrepareRow(row, env.(reply := b), onShutdown)
      {
      }
    }
  }

  /** When each change is made to a row, and with what. */
  lemma PreparedExactly(row: Row, env: RowEnv, onShutdown: bool)
    ensures var action := PrepareRow(row, env, onShutdown).0;
            var r := env.reply;
            && (!SameDifficulty(row, env) ==> action == NoAction)
            && (action == Submit(FILTERED) && env.verifiedType.None? <==> SameDifficulty(row, env) && env.verifiedType.None?)
            && (action == Submit(r) && env.verifiedType.Some? <==> Asked(row, env) && SubmitAccepted(r))
            && (action.Submit? ==> action.reply == if env.verifiedType.None? then FILTERED else r)
            && (action == SetReason(DIFFICULTY_CHANGE_REASON) <==>
                  Asked(row, env) && !SubmitAccepted(r) && IsDifficultyMismatch(r))
            && (action == SetReason(OUTSIDE_XUNI_WINDOW_REASON) <==>
                  || (SameDifficulty(row, env) && XuniClosed(env) && onShutdown)
                  || (Asked(row, env) && !SubmitAccepted(r) && !IsDifficultyMismatch(r) && IsXuniWindowReject(r)))
            && (action.Reject? <==>
                  Asked(row, env) && !SubmitAccepted(r) && !IsDifficultyMismatch(r) && !IsXuniWindowReject(r)
                  && !IsTransientSubmitFailure(r))
            && (action.Reject? ==>
                  action == Reject(r, if HeldAtShutdown(env, onShutdown) then SHUTDOWN_PENDING_REASON else RESUBMISSION_REASON))
            && (action == SetReason(SHUTDOWN_PENDING_REASON) <==>
                  Asked(row, env) && !SubmitAccepted(r) && !IsDifficultyMismatch(r) && !IsXuniWindowReject(r)
                  && IsTransientSubmitFailure(r) && HeldAtShutdown(env, onShutdown))
            && (action.SetReason? ==>
                  action.reason in {DIFFICULTY_CHANGE_REASON, OUTSIDE_XUNI_WINDOW_REASON, SHUTDOWN_PENDING_REASON})
  {
    hide SubmitAccepted, IsDifficultyMismatch, IsXuniWindowReject, IsTransientSubmitFailure, Upper;
  }

  /** A flush leaves a row of another difficulty as it was, whatever else it does. */
  lemma OtherDifficultyIsLeftAlone(st: Store, env: nat -> RowEnv, onShutdown: bool, id: nat)
    requires id < |st.rows| && !SameDifficulty(st.rows[id], env(id))
    ensures Flush(st, env, onShutdown).rows[id] == st.rows[id]
  {
    PreparedExactly(st.rows[id], env(id), onShutdown);
    hide PrepareRow;
    FlushLeavesRows(st, PendingIds(st.rows), env, onShutdown);
  }

  /** What a change leaves of a pending row: its hit always, the rest exactly as named. */
  lemma ChangedRowExactly(row: Row, action: Action)
    requires row.status == Pending
    ensures var after := RowAfter(row, action);
            && after.hit == row.hit
            && (after.status == Submitted <==> action.Submit?)
            && (after.rejectCount == row.rejectCount + (if action.Reject? then 1 else 0))
            && after.queueReason == if action.SetReason? || action.Reject? then action.reason else row.queueReason
  {
  }

  /** Waiting rows are marked for the next session: XUNI blocks outside their window as such, the others as held. */
  lemma DeferredExactly(st: Store, windowOpen: nat -> bool, id: nat)
    requires id < |st.rows|
    ensures var after := DeferToNextStart(st, windowOpen).rows;
            && |after| == |st.rows|
            && after[id] == st.rows[id].(queueReason :=
                 if st.rows[id].status != Pending then st.rows[id].queueReason
                 else if Upper(st.rows[id].hit.blockType) == "XUNI" && !windowOpen(id) then OUTSIDE_XUNI_WINDOW_REASON
                 else SHUTDOWN_PENDING_REASON)
  {
    DeferredRows(st, PendingIds(st.rows), windowOpen);
  }

  lemma {:induction false} DeferredRows(st: Store, ids: seq<nat>, windowOpen: nat -> bool)
    requires forall i :: 0 <= i < |ids| ==> ids[i] < |st.rows| && st.rows[ids[i]].status == Pending
    requires forall i, j :: 0 <= i < j < |ids| ==> ids[i] != ids[j]
    ensures forall id: nat :: id < |st.rows| ==>
              DeferRows(st, ids, windowOpen).rows[id]
              == if id in ids then st.rows[id].(queueReason := DeferReason(st.rows[id], windowOpen(id))) else st.rows[id]
  {
    hide DeferReason;
    if ids == [] {
    } else {
      var n := |ids| - 1;
      DeferredRows(st, ids[..n], windowOpen);
      assert ids == ids[..n] + [ids[n]] && ids[n] !in ids[..n];
    }
  }

  /** Relabelling changes the type of just the pending rows whose hash says something else, and nothing more. */
  lemma ReclassifiedExactly(st: Store, classify: (string, string) -> string, id: nat)
    requires id < |st.rows|
    ensures var (before, after) := (st.rows[id], Reclassify(st, classify).rows[id]);
            var kind := classify(before.hit.hashStr, before.hit.blockType);
            && (after != before <==> before.status == Pending && kind != "OTHER" && kind != before.hit.blockType)
            && (after != before ==> after == before.(hit := before.hit.(blockType := kind)))
            && Reclassify(st, classify).(rows := st.rows) == st
  {
  }

  /** The migration marks for resubmission just the pending rows whose key was once sent without success. */
  lemma MigratedExactly(st: Store, id: nat)
    requires id < |st.rows|
    ensures var (before, after) := (st.rows[id], MigrateRejectedPending(st).rows[id]);
            after == before.(queueReason :=
              if before.status == Pending
                 && exists s :: s in st.submitted && s.key == before.hit.key && !Success(s.reply.status)
              then RESUBMISSION_REASON else before.queueReason)
  {
  }

  // --------------------------------------------------------------- live hits

  /** The hit goes to the pool at once. */
  predicate Sent(env: HitEnv) {
    && !env.inTransition && env.prepared.Some? && !(env.isXuni && !env.windowOpen) && !env.shuttingDown && env.networkUp
  }

  /** Sent, and answered while the network was up, without success. */
  predicate Refused(env: HitEnv) {
    Sent(env) && !SubmitAccepted(env.reply) && env.reply.status != 0 && env.networkStillUp
  }

  /** When a hit is queued, and under which reason; nothing else is ever queued. */
  lemma HitQueuedExactly(st: Store, hit: BlockHit, env: HitEnv, reason: string)
    ensures var after := HandleHit(st, hit, env);
            && (after.log == st.log + [LogRecord(if env.inTransition then hit else Block(hit, env), reason)]
                && after.rows == st.rows + [NewRow(if env.inTransition then hit else Block(hit, env), reason)]
                <==> Queues(st, hit, env, reason))
            && (after.log == st.log <==> !exists why :: Queues(st, hit, env, why))
  {
    hide SubmitAccepted, IsDifficultyMismatch, IsXuniWindowReject, PendingKeys, FirstPending;
    var after := HandleHit(st, hit, env);
    var queued := if env.inTransition then hit else Block(hit, env);
    if after.log != st.log {
      var why := after.log[|st.log|].reason;
      assert after.log == st.log + [LogRecord(queued, why)] && after.rows == st.rows + [NewRow(queued, why)];
      assert Queues(st, hit, env, why);
      if after.log == st.log + [LogRecord(queued, reason)] {
        assert after.log[|st.log|] == LogRecord(queued, reason);
      }
    } else {
      assert after.log != st.log + [LogRecord(queued, reason)];
    }
  }

  /** The block as the CPU check prepared it, under the hit's key. */
  function Block(hit: BlockHit, env: HitEnv): BlockHit {
    if env.prepared.Some? then env.prepared.value.(key := hit.key) else hit
  }

  predicate Queues(st: Store, hit: BlockHit, env: HitEnv, reason: string) {
    || (reason == DIFFICULTY_CHANGE_REASON && (env.inTransition || (Refused(env) && IsDifficultyMismatch(env.reply))))
    || (reason == OUTSIDE_XUNI_WINDOW_REASON
        && ((!env.inTransition && env.prepared.Some? && env.isXuni && !env.windowOpen)
            || (Refused(env) && !IsDifficultyMismatch(env.reply) && IsXuniWindowReject(env.reply))))
    || (reason == SHUTDOWN_PENDING_REASON
        && !env.inTransition && env.prepared.Some? && !(env.isXuni && !env.windowOpen) && env.shuttingDown)
    || (reason == NETWORK_DOWN_REASON
        && ((!env.inTransition && env.prepared.Some? && !(env.isXuni && !env.windowOpen) && !env.shuttingDown && !env.networkUp)
            || (Sent(env) && !SubmitAccepted(env.reply) && !Refused(env))))
    || (reason == RESUBMISSION_REASON
        && Refused(env) && !IsDifficultyMismatch(env.reply) && !IsXuniWindowReject(env.reply) && hit.key !in PendingKeys(st.rows))
  }

  /** Which hits leave a submission on record: those accepted, unanswered, or rejected for the first time. */
  lemma HitRecordedExactly(st: Store, hit: BlockHit, env: HitEnv)
    ensures var after := HandleHit(st, hit, env);
            var rejected := Refused(env) && !IsDifficultyMismatch(env.reply) && !IsXuniWindowReject(env.reply);
            var firstTime := match FirstPending(st.rows, hit.key)
                             case None => true
                             case Some(id) => st.rows[id].rejectCount == 0;
            && after.submitted == st.submitted
                 + (if Sent(env) && (SubmitAccepted(env.reply) || !Refused(env) || (rejected && firstTime))
                    then [Submission(hit.key, env.reply)] else [])
            && after.rejected == st.rejected + (if rejected && firstTime then [Submission(hit.key, env.reply)] else [])
  {
    hide SubmitAccepted, IsDifficultyMismatch, IsXuniWindowReject, PendingKeys, FirstPending;
  }
}
