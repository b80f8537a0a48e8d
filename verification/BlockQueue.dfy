/**
  The durable block queue as values: the append-only log, the row table, the submission record
  and the rejection log of block_queue/store.py, and what each store operation does to them.
 */
module BlockQueue {
  import opened Numbers
  import opened SubmitResult

  const RESUBMISSION_REASON := "resubmission"
  const OUTSIDE_XUNI_WINDOW_REASON := "outside_xuni_window"
  const SHUTDOWN_PENDING_REASON := "shutdown_pending"
  const DIFFICULTY_CHANGE_REASON := "difficulty_change"
  const NETWORK_DOWN_REASON := "network_down"
  const FILTERED := Reply(0, "filtered:false_positive")

  datatype BlockHit = BlockHit(
    key: string, hashStr: string, blockType: string, strategy: string, attempts: int, memoryCost: Option<int>)

  datatype Status = Pending | Submitted

  datatype LogRecord = LogRecord(hit: BlockHit, reason: string)

  /** A row's id is its position: ids only grow and no row is deleted. */
  datatype Row = Row(hit: BlockHit, queueReason: string, rejectCount: nat, status: Status)

  datatype Submission = Submission(key: string, reply: Reply)

  datatype Store = Store(log: seq<LogRecord>, rows: seq<Row>, submitted: seq<Submission>, rejected: seq<Submission>)

  const EMPTY := Store([], [], [], [])

  // ------------------------------------------------------------ projections

  function LogKeys(log: seq<LogRecord>): set<string> {
    set r | r in log :: r.hit.key
  }

  function PendingKeys(rows: seq<Row>): set<string> {
    set r | r in rows && r.status == Pending :: r.hit.key
  }

  function AcceptedKeys(submitted: seq<Submission>): set<string> {
    set s | s in submitted && Success(s.reply.status) :: s.key
  }

  /** Keys the pool holds, by any reply, or that failed verification on the CPU. */
  function ClosedKeys(submitted: seq<Submission>): set<string> {
    set s | s in submitted && (SubmitAccepted(s.reply) || s.reply == FILTERED) :: s.key
  }

  function PendingCount(rows: seq<Row>): nat {
    if rows == [] then 0
    else PendingCount(rows[..|rows| - 1]) + (if rows[|rows| - 1].status == Pending then 1 else 0)
  }

  function PendingCountOf(rows: seq<Row>, key: string): nat {
    if rows == [] then 0
    else PendingCountOf(rows[..|rows| - 1], key)
         + (if rows[|rows| - 1].status == Pending && rows[|rows| - 1].hit.key == key then 1 else 0)
  }

  function RejectedRows(rows: seq<Row>): nat {
    if rows == [] then 0
    else RejectedRows(rows[..|rows| - 1]) + (if rows[|rows| - 1].rejectCount > 0 then 1 else 0)
  }

  function PendingIds(rows: seq<Row>): (ids: seq<nat>)
    ensures forall i :: 0 <= i < |ids| ==> ids[i] < |rows| && rows[ids[i]].status == Pending
    ensures forall i, j :: 0 <= i < j < |ids| ==> ids[i] < ids[j]
    ensures forall id: nat :: id < |rows| && rows[id].status == Pending ==> id in ids
    ensures |ids| == PendingCount(rows)
  {
    if rows == [] then []
    else
      var before := PendingIds(rows[..|rows| - 1]);
      if rows[|rows| - 1].status == Pending then before + [|rows| - 1] else before
  }

  // ------------------------------------------------------------- operations

  function NewRow(hit: BlockHit, reason: string): Row {
    Row(hit, reason, 0, Pending)
  }

  /** The first half of `enqueue`; a crash may stop it here. */
  function AppendLog(st: Store, hit: BlockHit, reason: string): Store {
    st.(log := st.log + [LogRecord(hit, reason)])
  }

  function Enqueue(st: Store, hit: BlockHit, reason: string): Store {
    AppendLog(st, hit, reason).(rows := st.rows + [NewRow(hit, reason)])
  }

  function MarkPendingReason(st: Store, id: nat, reason: string): Store {
    if id < |st.rows| && st.rows[id].status == Pending
    then st.(rows := st.rows[id := st.rows[id].(queueReason := reason)])
    else st
  }

  function MarkSubmitted(st: Store, id: nat, reply: Reply): Store {
    if id < |st.rows|
    then st.(rows := st.rows[id := st.rows[id].(status := Submitted)],
             submitted := st.submitted + [Submission(st.rows[id].hit.key, reply)])
    else st
  }

  function RecordDirectSubmit(st: Store, key: string, reply: Reply): Store {
    st.(submitted := st.submitted + [Submission(key, reply)])
  }

  function LogRejection(st: Store, key: string, reply: Reply): Store {
    st.(rejected := st.rejected + [Submission(key, reply)])
  }

  function CountReject(row: Row, reason: string): Row {
    row.(queueReason := reason, rejectCount := row.rejectCount + 1)
  }

  function LogFirstReject(st: Store, first: bool, key: string, reply: Reply): Store {
    if first then RecordDirectSubmit(LogRejection(st, key, reply), key, reply) else st
  }

  function RejectPending(st: Store, id: nat, key: string, reply: Reply, reason: string): Store {
    if id < |st.rows| && st.rows[id].status == Pending
    then LogFirstReject(st.(rows := st.rows[id := CountReject(st.rows[id], reason)]),
                        st.rows[id].rejectCount == 0, key, reply)
    else st
  }

  /** The first pending row of a key, which is the one the query returns. */
  function FirstPending(rows: seq<Row>, key: string): (id: Option<nat>)
    ensures id.Some? ==> id.value < |rows| && rows[id.value].status == Pending && rows[id.value].hit.key == key
    ensures id.Some? ==> forall i :: 0 <= i < id.value ==> !(rows[i].status == Pending && rows[i].hit.key == key)
    ensures id.None? <==> key !in PendingKeys(rows)
  {
    if rows == [] then None
    else
      assert rows == rows[..|rows| - 1] + [rows[|rows| - 1]];
      match FirstPending(rows[..|rows| - 1], key)
      case Some(id) => Some(id)
      case None =>
        if rows[|rows| - 1].status == Pending && rows[|rows| - 1].hit.key == key
        then Some(|rows| - 1) else None
  }

  /** `record_rejection` for a live submission: reject the pending row of the key, or queue the block. */
  function RecordLiveRejection(st: Store, hit: BlockHit, reply: Reply): Store {
    match FirstPending(st.rows, hit.key)
    case Some(id) => RejectPending(st, id, hit.key, reply, RESUBMISSION_REASON)
    case None => Enqueue(LogFirstReject(st, true, hit.key, reply), hit, RESUBMISSION_REASON)
  }

  /** The log records an import re-queues: the first of each key that is not yet known. */
  function Fresh(log: seq<LogRecord>, known: set<string>): seq<LogRecord> {
    if log == [] then []
    else
      var before := Fresh(log[..|log| - 1], known);
      var record := log[|log| - 1];
      if record.hit.key in known || record.hit.key in LogKeys(before) then before else before + [record]
  }

  /** The import restores every column but the block's difficulty. */
  function ImportedRow(record: LogRecord): Row {
    NewRow(record.hit.(memoryCost := None), record.reason)
  }

  function ImportedRows(records: seq<LogRecord>): (rows: seq<Row>)
    ensures |rows| == |records|
    ensures forall i :: 0 <= i < |rows| ==> rows[i] == ImportedRow(records[i])
  {
    seq(|records|, i requires 0 <= i < |records| => ImportedRow(records[i]))
  }

  function KnownKeys(st: Store): set<string> {
    PendingKeys(st.rows) + AcceptedKeys(st.submitted)
  }

  function Import(st: Store): Store {
    st.(rows := st.rows + ImportedRows(Fresh(st.log, KnownKeys(st))))
  }

  function Reclassified(row: Row, classify: (string, string) -> string): Row {
    var kind := classify(row.hit.hashStr, row.hit.blockType);
    if row.status == Pending && kind != "OTHER" && kind != row.hit.blockType
    then row.(hit := row.hit.(blockType := kind)) else row
  }

  function Reclassify(st: Store, classify: (string, string) -> string): Store {
    st.(rows := seq(|st.rows|, i requires 0 <= i < |st.rows| => Reclassified(st.rows[i], classify)))
  }

  predicate HasFailedSubmission(st: Store, key: string) {
    exists s :: s in st.submitted && s.key == key && !Success(s.reply.status)
  }

  function Migrated(st: Store, row: Row): Row {
    if row.status == Pending && HasFailedSubmission(st, row.hit.key)
    then row.(queueReason := RESUBMISSION_REASON) else row
  }

  function MigrateRejectedPending(st: Store): Store {
    st.(rows := seq(|st.rows|, i requires 0 <= i < |st.rows| => Migrated(st, st.rows[i])))
  }

  // ------------------------------------------------------------------ flush

  /** What a row meets on the way to the pool: network difficulty, the type the CPU check found, window and reply. */
  datatype RowEnv = RowEnv(
    difficulty: int, hashCost: Option<int>, verifiedType: Option<string>, windowOpen: bool, reply: Reply)

  datatype Outcome =
    | WaitingDifficulty
    | WaitingXuni
    | Dropped
    | Flushed
    | Failed(shutdownQueued: bool, countedReject: bool)

  /** The one change a worker makes to its row, and whether it then logs a first rejection. */
  datatype Action =
    | NoAction
    | SetReason(reason: string)
    | Submit(reply: Reply)
    | Reject(reply: Reply, reason: string)

  function Upper(s: string): string {
    seq(|s|, i requires 0 <= i < |s| => if 'a' <= s[i] <= 'z' then (s[i] as int - 32) as char else s[i])
  }

  predicate ReadyToFlush(blockType: string, windowOpen: bool) {
    Upper(blockType) == "XUNI" ==> windowOpen
  }

  function BlockCost(row: Row, env: RowEnv): Option<int> {
    if row.hit.memoryCost.Some? && row.hit.memoryCost.value != 0 then row.hit.memoryCost else env.hashCost
  }

  /** The decisions of `_prepare_row`, in its order. */
  function PrepareRow(row: Row, env: RowEnv, onShutdown: bool): (Action, Outcome) {
    var cost := BlockCost(row, env);
    if cost.Some? && cost.value != env.difficulty then (NoAction, WaitingDifficulty)
    else if env.verifiedType.None? then (Submit(FILTERED), Dropped)
    else if !ReadyToFlush(env.verifiedType.value, env.windowOpen) then
      (if onShutdown then SetReason(OUTSIDE_XUNI_WINDOW_REASON) else NoAction, WaitingXuni)
    else
      match Classify(env.reply)
      case Accepted => (Submit(env.reply), Flushed)
      case HoldForDifficulty => (SetReason(DIFFICULTY_CHANGE_REASON), WaitingDifficulty)
      case HoldForWindow => (SetReason(OUTSIDE_XUNI_WINDOW_REASON), WaitingXuni)
      case _ =>
        var held := onShutdown && Upper(env.verifiedType.value) in {"XNM", "XBLK"};
        if CountsAsReject(env.reply)
        then (Reject(env.reply, if held then SHUTDOWN_PENDING_REASON else RESUBMISSION_REASON), Failed(held, true))
        else (if held then SetReason(SHUTDOWN_PENDING_REASON) else NoAction, Failed(held, false))
  }

  function Act(st: Store, id: nat, action: Action): Store
    requires id < |st.rows|
  {
    match action
    case NoAction => st
    case SetReason(reason) => MarkPendingReason(st, id, reason)
    case Submit(reply) => MarkSubmitted(st, id, reply)
    case Reject(reply, reason) => RejectPending(st, id, st.rows[id].hit.key, reply, reason)
  }

  function FlushRow(st: Store, id: nat, env: RowEnv, onShutdown: bool): Store
    requires id < |st.rows|
  {
    Act(st, id, PrepareRow(st.rows[id], env, onShutdown).0)
  }

  predicate Leaves(outcome: Outcome) {
    outcome == Flushed || outcome == Dropped
  }

  /** Flush the rows `ids` of a snapshot one after the other. */
  function FlushRows(st: Store, ids: seq<nat>, env: nat -> RowEnv, onShutdown: bool): (r: Store)
    requires forall i :: 0 <= i < |ids| ==> ids[i] < |st.rows|
    ensures |r.rows| == |st.rows|
  {
    if ids == [] then st
    else
      var before := FlushRows(st, ids[..|ids| - 1], env, onShutdown);
      FlushRow(before, ids[|ids| - 1], env(ids[|ids| - 1]), onShutdown)
  }

  function Flush(st: Store, env: nat -> RowEnv, onShutdown: bool): Store {
    FlushRows(st, PendingIds(st.rows), env, onShutdown)
  }

  function DeferReason(row: Row, windowOpen: bool): string {
    if Upper(row.hit.blockType) == "XUNI" && !windowOpen then OUTSIDE_XUNI_WINDOW_REASON
    else SHUTDOWN_PENDING_REASON
  }

  function DeferRows(st: Store, ids: seq<nat>, windowOpen: nat -> bool): (r: Store)
    requires forall i :: 0 <= i < |ids| ==> ids[i] < |st.rows|
    ensures |r.rows| == |st.rows|
  {
    if ids == [] then st
    else
      var before := DeferRows(st, ids[..|ids| - 1], windowOpen);
      var id := ids[|ids| - 1];
      MarkPendingReason(before, id, DeferReason(st.rows[id], windowOpen(id)))
  }

  function DeferToNextStart(st: Store, windowOpen: nat -> bool): Store {
    DeferRows(st, PendingIds(st.rows), windowOpen)
  }

  // --------------------------------------------------------------- live hits

  /** What a fresh hit meets: the miner's state, the CPU check, the window, the network and the reply. */
  datatype HitEnv = HitEnv(
    inTransition: bool, prepared: Option<BlockHit>, shuttingDown: bool, isXuni: bool, windowOpen: bool,
    networkUp: bool, networkStillUp: bool, reply: Reply)

  /** `handle_hit`: the store after a hit. */
  function HandleHit(st: Store, hit: BlockHit, env: HitEnv): Store {
    if env.inTransition then Enqueue(st, hit, DIFFICULTY_CHANGE_REASON)
    else if env.prepared.None? then st
    else
      var block := env.prepared.value.(key := hit.key);
      if env.isXuni && !env.windowOpen then Enqueue(st, block, OUTSIDE_XUNI_WINDOW_REASON)
      else if env.shuttingDown then Enqueue(st, block, SHUTDOWN_PENDING_REASON)
      else if !env.networkUp then Enqueue(st, block, NETWORK_DOWN_REASON)
      else if SubmitAccepted(env.reply) then RecordDirectSubmit(st, hit.key, env.reply)
      else if env.reply.status == 0 || !env.networkStillUp
      then Enqueue(RecordDirectSubmit(st, hit.key, env.reply), block, NETWORK_DOWN_REASON)
      else if IsDifficultyMismatch(env.reply) then Enqueue(st, block, DIFFICULTY_CHANGE_REASON)
      else if IsXuniWindowReject(env.reply) then Enqueue(st, block, OUTSIDE_XUNI_WINDOW_REASON)
      else RecordLiveRejection(st, block, env.reply)
  }
}
