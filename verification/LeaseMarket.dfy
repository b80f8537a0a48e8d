/**
  The lease market of server/matcher.py as a protocol: every `await` is a point where other tasks run.
  Renting and stopping hold the lock; the expiry pass and worker messages do not.
 */
module LeaseMarket {
  import opened Numbers

  type WorkerId = string
  type LeaseId = string

  const AVAILABLE := "AVAILABLE"
  const LEASED := "LEASED"

  datatype LeaseState = Active | Completed

  datatype Lease = Lease(workerId: WorkerId, consumerId: string, expiresAt: int, state: LeaseState)

  /** Where a task stands: the database call it makes next. */
  datatype Task =
    | RentQueued(wanted: Option<WorkerId>, consumerId: string, durationSec: int)
    | RentGetWorker(wantedId: WorkerId, consumerId: string, durationSec: int)
    | RentListWorkers(consumerId: string, durationSec: int)
    | RentGetLease(candidate: WorkerId, rest: seq<WorkerId>, consumerId: string, durationSec: int)
    | RentCreate(target: WorkerId, consumerId: string, durationSec: int)
    | RentMark(target: WorkerId, leaseId: LeaseId)
    | StopQueued(leaseId: LeaseId)
    | StopGet(leaseId: LeaseId)
    | StopComplete(leaseId: LeaseId, workerId: WorkerId)
    | StopFree(workerId: WorkerId)
    | ExpiryFind
    | ExpiryComplete(todo: seq<LeaseId>)
    | ExpiryFree(workerId: WorkerId, todo: seq<LeaseId>)
    | Done
  {
    predicate HoldsLock() {
      || RentGetWorker? || RentListWorkers? || RentGetLease? || RentCreate? || RentMark?
      || StopGet? || StopComplete? || StopFree?
    }

    predicate Initial() {
      RentQueued? || StopQueued? || ExpiryFind?
    }
  }

  datatype State = State(
    workers: map<WorkerId, string>, leases: map<LeaseId, Lease>, lock: Option<nat>, tasks: map<nat, Task>)

  const IDLE := State(map[], map[], None, map[])

  datatype Event =
    | Spawn(tid: nat, task: Task)
    | Step(tid: nat, now: int, freshId: LeaseId, order: seq<string>)
    | RegisterWorker(workerId: WorkerId)
    | WorkerStatus(workerId: WorkerId, status: string)

  predicate HasActiveLease(leases: map<LeaseId, Lease>, w: WorkerId) {
    exists id :: id in leases && leases[id].workerId == w && leases[id].state == Active
  }

  function UpdateWorker(st: State, w: WorkerId, status: string): State {
    if w in st.workers then st.(workers := st.workers[w := status]) else st
  }

  function CompleteLease(st: State, id: LeaseId): State {
    if id in st.leases then st.(leases := st.leases[id := st.leases[id].(state := Completed)]) else st
  }

  function Goto(st: State, tid: nat, task: Task): State {
    st.(tasks := st.tasks[tid := task])
  }

  function Release(st: State, tid: nat): State {
    Goto(st, tid, Done).(lock := None)
  }

  /** The rows a query returned, in the order it returned them; rows that do not match are not kept. */
  function Matching(order: seq<string>, keep: string -> bool): (rows: seq<string>)
    ensures forall x :: x in rows <==> x in order && keep(x)
  {
    if order == [] then []
    else (if keep(order[0]) then [order[0]] else []) + Matching(order[1..], keep)
  }

  /** The scan of `rent_hashpower` for any worker: ask for the lease of the next available one. */
  function NextCandidate(st: State, tid: nat, rest: seq<WorkerId>, consumerId: string, durationSec: int): State {
    if rest == [] then Release(st, tid)
    else Goto(st, tid, RentGetLease(rest[0], rest[1..], consumerId, durationSec))
  }

  function Run1(st: State, tid: nat, now: int, freshId: LeaseId, order: seq<string>): State
    requires tid in st.tasks
  {
    match st.tasks[tid]
    case RentQueued(wanted, consumerId, durationSec) =>
      if st.lock.Some? then st
      else Goto(st, tid, if wanted.Some? then RentGetWorker(wanted.value, consumerId, durationSec)
                         else RentListWorkers(consumerId, durationSec)).(lock := Some(tid))
    case RentGetWorker(w, consumerId, durationSec) =>
      if w in st.workers && st.workers[w] == AVAILABLE then Goto(st, tid, RentGetLease(w, [], consumerId, durationSec))
      else Release(st, tid)
    case RentListWorkers(consumerId, durationSec) =>
      NextCandidate(st, tid, Matching(order, w => w in st.workers && st.workers[w] == AVAILABLE), consumerId, durationSec)
    case RentGetLease(w, rest, consumerId, durationSec) =>
      if HasActiveLease(st.leases, w) then NextCandidate(st, tid, rest, consumerId, durationSec)
      else Goto(st, tid, RentCreate(w, consumerId, durationSec))
    case RentCreate(w, consumerId, durationSec) =>
      // Identifiers are drawn at random and never repeat.
      if freshId in st.leases then st
      else Goto(st, tid, RentMark(w, freshId)).(leases := st.leases[freshId := Lease(w, consumerId, now + durationSec, Active)])
    case RentMark(w, _) =>
      Release(UpdateWorker(st, w, LEASED), tid)
    case StopQueued(id) =>
      if st.lock.Some? then st else Goto(st, tid, StopGet(id)).(lock := Some(tid))
    case StopGet(id) =>
      if id in st.leases && st.leases[id].state == Active then Goto(st, tid, StopComplete(id, st.leases[id].workerId))
      else Release(st, tid)
    case StopComplete(id, w) =>
      Goto(CompleteLease(st, id), tid, StopFree(w))
    case StopFree(w) =>
      Release(UpdateWorker(st, w, AVAILABLE), tid)
    case ExpiryFind =>
      Goto(st, tid, ExpiryComplete(Matching(order, id =>
        id in st.leases && st.leases[id].state == Active && st.leases[id].expiresAt < now)))
    case ExpiryComplete(todo) =>
      if todo == [] then Goto(st, tid, Done)
      else if todo[0] !in st.leases then Goto(st, tid, ExpiryComplete(todo[1..]))
      else Goto(CompleteLease(st, todo[0]), tid, ExpiryFree(st.leases[todo[0]].workerId, todo[1..]))
    case ExpiryFree(w, todo) =>
      Goto(UpdateWorker(st, w, AVAILABLE), tid, ExpiryComplete(todo))
    case Done => st
  }

  function Next(st: State, e: Event): State {
    match e
    case Spawn(tid, task) =>
      if tid in st.tasks || !task.Initial() then st else Goto(st, tid, task)
    case Step(tid, now, freshId, order) =>
      if tid in st.tasks then Run1(st, tid, now, freshId, order) else st
    case RegisterWorker(w) => st.(workers := st.workers[w := AVAILABLE])
    case WorkerStatus(w, status) => UpdateWorker(st, w, status)
  }

  function Run(events: seq<Event>): State {
    if events == [] then IDLE else Next(Run(events[..|events| - 1]), events[|events| - 1])
  }

  // -------------------------------------------------------------- invariants

  predicate OneLeasePerWorker(st: State) {
    forall a, b :: a in st.leases && b in st.leases && a != b
                   && st.leases[a].state == Active && st.leases[b].state == Active ==>
                     st.leases[a].workerId != st.leases[b].workerId
  }

  predicate LockHeldByOne(st: State) {
    && (forall tid :: tid in st.tasks && st.tasks[tid].HoldsLock() ==> st.lock == Some(tid))
    && (st.lock.Some? ==> st.lock.value in st.tasks && st.tasks[st.lock.value].HoldsLock())
  }

  /** A task about to create a lease has seen its worker free, and nobody can have taken it since. */
  predicate TargetsFree(st: State) {
    forall tid :: tid in st.tasks && st.tasks[tid].RentCreate? ==> !HasActiveLease(st.leases, st.tasks[tid].target)
  }

  predicate Safe(st: State) {
    OneLeasePerWorker(st) && LockHeldByOne(st) && TargetsFree(st)
  }

  /** Between two states: completed leases stay completed, and a lease never changes hands. */
  predicate Advances(before: State, after: State) {
    forall id :: id in before.leases ==>
      && id in after.leases
      && after.leases[id].workerId == before.leases[id].workerId
      && after.leases[id].consumerId == before.leases[id].consumerId
      && (before.leases[id].state == Completed ==> after.leases[id].state == Completed)
  }

  lemma CompletingFreesOnly(st: State, id: LeaseId, w: WorkerId)
    requires HasActiveLease(CompleteLease(st, id).leases, w)
    ensures HasActiveLease(st.leases, w)
  {
    var x :| x in CompleteLease(st, id).leases && CompleteLease(st, id).leases[x].workerId == w
             && CompleteLease(st, id).leases[x].state == Active;
    assert x in st.leases && st.leases[x].workerId == w && st.leases[x].state == Active;
  }

  lemma CreatingKeepsOneLease(st: State, tid: nat, id: LeaseId, lease: Lease)
    requires OneLeasePerWorker(st) && id !in st.leases && !HasActiveLease(st.leases, lease.workerId)
    ensures OneLeasePerWorker(st.(leases := st.leases[id := lease]))
  {
  }

  /** What a step does to the lease table. */
  function LeasesAfter(st: State, task: Task, now: int, freshId: LeaseId): map<LeaseId, Lease> {
    match task
    case RentCreate(w, consumerId, durationSec) =>
      if freshId in st.leases then st.leases
      else st.leases[freshId := Lease(w, consumerId, now + durationSec, Active)]
    case StopComplete(id, _) => CompleteLease(st, id).leases
    case ExpiryComplete(todo) => if todo == [] then st.leases else CompleteLease(st, todo[0]).leases
    case _ => st.leases
  }

  lemma StepLeases(st: State, tid: nat, now: int, freshId: LeaseId, order: seq<string>)
    requires tid in st.tasks
    ensures Run1(st, tid, now, freshId, order).leases == LeasesAfter(st, st.tasks[tid], now, freshId)
  {
    hide Matching, HasActiveLease;
  }

  lemma CompletingKeepsOneLease(st: State, id: LeaseId)
    requires OneLeasePerWorker(st)
    ensures OneLeasePerWorker(CompleteLease(st, id)) && Advances(st, CompleteLease(st, id))
  {
  }

  lemma StepKeepsOneLease(st: State, tid: nat, now: int, freshId: LeaseId, order: seq<string>)
    requires Safe(st) && tid in st.tasks
    ensures OneLeasePerWorker(Run1(st, tid, now, freshId, order))
    ensures Advances(st, Run1(st, tid, now, freshId, order))
  {
    hide Run1;
    StepLeases(st, tid, now, freshId, order);
    match st.tasks[tid]
    case RentCreate(w, consumerId, durationSec) =>
      if freshId !in st.leases {
        CreatingKeepsOneLease(st, tid, freshId, Lease(w, consumerId, now + durationSec, Active));
      }
    case StopComplete(id, _) => CompletingKeepsOneLease(st, id);
    case ExpiryComplete(todo) => if todo != [] { CompletingKeepsOneLease(st, todo[0]); }
    case _ =>
  }

  /** One task moved, and the lock with it. */
  predicate MovesTask(st: State, tid: nat, after: State)
    requires tid in st.tasks
  {
    && tid in after.tasks && after.tasks == st.tasks[tid := after.tasks[tid]]
    && (if st.tasks[tid].HoldsLock()
        then if after.tasks[tid].HoldsLock() then after.lock == st.lock else after.lock == None
        else if after.tasks[tid].HoldsLock() then st.lock == None && after.lock == Some(tid)
        else after.lock == st.lock)
  }

  lemma StayingMovesTask(st: State, tid: nat)
    requires tid in st.tasks
    ensures MovesTask(st, tid, st)
  {
    assert st.tasks == st.tasks[tid := st.tasks[tid]];
  }

  lemma RentStepMovesTask(st: State, tid: nat, now: int, freshId: LeaseId, order: seq<string>)
    requires tid in st.tasks
    requires st.tasks[tid].RentQueued? || st.tasks[tid].RentGetWorker? || st.tasks[tid].RentListWorkers?
             || st.tasks[tid].RentGetLease?
    ensures MovesTask(st, tid, Run1(st, tid, now, freshId, order))
  {
    hide Matching, HasActiveLease;
    StayingMovesTask(st, tid);
  }

  lemma LeaseStepMovesTask(st: State, tid: nat, now: int, freshId: LeaseId, order: seq<string>)
    requires tid in st.tasks
    requires st.tasks[tid].RentCreate? || st.tasks[tid].RentMark? || st.tasks[tid].StopQueued? || st.tasks[tid].StopGet?
    ensures MovesTask(st, tid, Run1(st, tid, now, freshId, order))
  {
    hide Matching, HasActiveLease;
    StayingMovesTask(st, tid);
  }

  lemma OtherStepMovesTask(st: State, tid: nat, now: int, freshId: LeaseId, order: seq<string>)
    requires tid in st.tasks
    requires st.tasks[tid].StopComplete? || st.tasks[tid].StopFree? || st.tasks[tid].ExpiryFind?
             || st.tasks[tid].ExpiryComplete? || st.tasks[tid].ExpiryFree? || st.tasks[tid].Done?
    ensures MovesTask(st, tid, Run1(st, tid, now, freshId, order))
  {
    hide Matching, HasActiveLease;
    StayingMovesTask(st, tid);
  }

  lemma StepTask(st: State, tid: nat, now: int, freshId: LeaseId, order: seq<string>)
    requires tid in st.tasks
    ensures MovesTask(st, tid, Run1(st, tid, now, freshId, order))
  {
    hide Run1, MovesTask;
    var task := st.tasks[tid];
    if task.RentQueued? || task.RentGetWorker? || task.RentListWorkers? || task.RentGetLease? {
      RentStepMovesTask(st, tid, now, freshId, order);
    } else if task.RentCreate? || task.RentMark? || task.StopQueued? || task.StopGet? {
      LeaseStepMovesTask(st, tid, now, freshId, order);
    } else {
      OtherStepMovesTask(st, tid, now, freshId, order);
    }
  }

  lemma StepKeepsLock(st: State, tid: nat, now: int, freshId: LeaseId, order: seq<string>)
    requires LockHeldByOne(st) && tid in st.tasks
    ensures LockHeldByOne(Run1(st, tid, now, freshId, order))
  {
    hide Run1;
    StepTask(st, tid, now, freshId, order);
  }

  lemma StepKeepsTargetsFree(st: State, tid: nat, now: int, freshId: LeaseId, order: seq<string>)
    requires Safe(st) && tid in st.tasks
    ensures TargetsFree(Run1(st, tid, now, freshId, order))
  {
    StepLeases(st, tid, now, freshId, order);
    StepTask(st, tid, now, freshId, order);
    var after := Run1(st, tid, now, freshId, order);
    forall t | t in after.tasks && after.tasks[t].RentCreate?
      ensures !HasActiveLease(after.leases, after.tasks[t].target)
    {
      var w := after.tasks[t].target;
      if t != tid {
        assert st.tasks[t] == after.tasks[t] && st.lock == Some(t) && !st.tasks[tid].HoldsLock();
        if HasActiveLease(after.leases, w) && st.tasks[tid].ExpiryComplete? && st.tasks[tid].todo != [] {
          CompletingFreesOnly(st, st.tasks[tid].todo[0], w);
        }
      }
    }
  }

  lemma EventKeepsSafe(st: State, e: Event)
    requires Safe(st)
    ensures Safe(Next(st, e)) && Advances(st, Next(st, e))
  {
    match e
    case Step(tid, now, freshId, order) =>
      if tid in st.tasks {
        StepKeepsOneLease(st, tid, now, freshId, order);
        StepKeepsLock(st, tid, now, freshId, order);
        StepKeepsTargetsFree(st, tid, now, freshId, order);
      }
    case _ =>
  }

  /** However tasks and messages interleave, no worker ever has two active leases. */
  lemma {:induction false} NeverTwoActiveLeases(events: seq<Event>)
    ensures Safe(Run(events))
  {
    if events == [] {
    } else {
      NeverTwoActiveLeases(events[..|events| - 1]);
      EventKeepsSafe(Run(events[..|events| - 1]), events[|events| - 1]);
    }
  }

  lemma RunOneMore(events: seq<Event>, e: Event)
    ensures Run(events + [e]) == Next(Run(events), e)
  {
    assert (events + [e])[..|events|] == events;
  }

  lemma AdvancesCompose(a: State, b: State, c: State)
    requires Advances(a, b) && Advances(b, c)
    ensures Advances(a, c)
  {
  }

  /** Whatever happens later, a completed lease stays completed and keeps its worker and consumer. */
  lemma {:induction false} CompletedLeasesStayCompleted(events: seq<Event>, later: seq<Event>)
    ensures Advances(Run(events), Run(events + later))
  {
    if later == [] {
      assert events + later == events;
    } else {
      hide Advances, Safe, Next, Run;
      var n := |later| - 1;
      CompletedLeasesStayCompleted(events, later[..n]);
      assert events + later == events + later[..n] + [later[n]];
      RunOneMore(events + later[..n], later[n]);
      NeverTwoActiveLeases(events + later[..n]);
      EventKeepsSafe(Run(events + later[..n]), later[n]);
      AdvancesCompose(Run(events), Run(events + later[..n]), Run(events + later));
    }
  }
}
