/**
  What the lock of LeaseMarket protects and what it does not: when a worker can be listed as available while
  it is leased, and that whoever holds the lock gives it back.
 */
module LeaseRaces {
  import opened Numbers
  import opened LeaseMarket

  predicate ListedFreeWhileLeased(st: State) {
    exists w :: w in st.workers && st.workers[w] == AVAILABLE && HasActiveLease(st.leases, w)
  }

  // ----------------------------------------------------- the exact condition

  /** An event that lists a leased worker as available, or leases one that is listed. */
  predicate FreesALeasedWorker(st: State, e: Event) {
    match e
    case RegisterWorker(w) => HasActiveLease(st.leases, w)
    case WorkerStatus(w, status) => status == AVAILABLE && w in st.workers && HasActiveLease(st.leases, w)
    case Spawn(_, _) => false
    case Step(tid, _, freshId, _) =>
      tid in st.tasks &&
      match st.tasks[tid]
      case StopFree(w) => w in st.workers && HasActiveLease(st.leases, w)
      case ExpiryFree(w, _) => w in st.workers && HasActiveLease(st.leases, w)
      case RentCreate(w, _, _) => freshId !in st.leases && w in st.workers && st.workers[w] == AVAILABLE
      case _ => false
  }

  /** What a step does to the worker table. */
  function WorkersAfter(st: State, task: Task): map<WorkerId, string> {
    match task
    case RentMark(w, _) => UpdateWorker(st, w, LEASED).workers
    case StopFree(w) => UpdateWorker(st, w, AVAILABLE).workers
    case ExpiryFree(w, _) => UpdateWorker(st, w, AVAILABLE).workers
    case _ => st.workers
  }

  lemma StepWorkers(st: State, tid: nat, now: int, freshId: LeaseId, order: seq<string>)
    requires tid in st.tasks
    ensures Run1(st, tid, now, freshId, order).workers == WorkersAfter(st, st.tasks[tid])
  {
    hide Matching, HasActiveLease;
  }

  lemma ListedFreeWitness(st: State, w: WorkerId)
    requires w in st.workers && st.workers[w] == AVAILABLE && HasActiveLease(st.leases, w)
    ensures ListedFreeWhileLeased(st)
  {
  }

  /** Marking one worker: the others keep their place, and leases do not move. */
  lemma MarkingAWorker(st: State, w: WorkerId, status: string)
    requires !ListedFreeWhileLeased(st)
    ensures ListedFreeWhileLeased(UpdateWorker(st, w, status))
       <==> status == AVAILABLE && w in st.workers && HasActiveLease(st.leases, w)
  {
    hide HasActiveLease;
    var after := UpdateWorker(st, w, status);
    if status == AVAILABLE && w in st.workers && HasActiveLease(st.leases, w) {
      ListedFreeWitness(after, w);
    }
  }

  lemma CompletingListsNobody(st: State, id: LeaseId)
    requires !ListedFreeWhileLeased(st)
    ensures !ListedFreeWhileLeased(CompleteLease(st, id))
  {
    forall w | HasActiveLease(CompleteLease(st, id).leases, w) ensures HasActiveLease(st.leases, w) {
      CompletingFreesOnly(st, id, w);
    }
  }

  lemma CreatingAddsOne(leases: map<LeaseId, Lease>, id: LeaseId, lease: Lease, w: WorkerId)
    requires id !in leases && lease.state == Active
    ensures HasActiveLease(leases[id := lease], w) <==> HasActiveLease(leases, w) || w == lease.workerId
  {
    var after := leases[id := lease];
    if HasActiveLease(leases, w) {
      var x :| x in leases && leases[x].workerId == w && leases[x].state == Active;
      assert x in after && after[x] == leases[x];
    }
    if w == lease.workerId {
      assert after[id] == lease;
    }
  }

  lemma CreatingLists(st: State, id: LeaseId, lease: Lease)
    requires !ListedFreeWhileLeased(st) && id !in st.leases && lease.state == Active
    ensures ListedFreeWhileLeased(st.(leases := st.leases[id := lease]))
       <==> lease.workerId in st.workers && st.workers[lease.workerId] == AVAILABLE
  {
    var after := st.(leases := st.leases[id := lease]);
    forall w ensures HasActiveLease(after.leases, w) <==> HasActiveLease(st.leases, w) || w == lease.workerId {
      CreatingAddsOne(st.leases, id, lease, w);
    }
    hide HasActiveLease;
    if lease.workerId in st.workers && st.workers[lease.workerId] == AVAILABLE {
      ListedFreeWitness(after, lease.workerId);
    }
  }

  lemma SameTables(st: State, other: State)
    requires st.workers == other.workers && st.leases == other.leases
    ensures ListedFreeWhileLeased(st) <==> ListedFreeWhileLeased(other)
  {
  }

  lemma StepListsExactly(st: State, tid: nat, now: int, freshId: LeaseId, order: seq<string>)
    requires !ListedFreeWhileLeased(st) && tid in st.tasks
    ensures ListedFreeWhileLeased(Run1(st, tid, now, freshId, order))
       <==> FreesALeasedWorker(st, Step(tid, now, freshId, order))
  {
    hide Run1, HasActiveLease, ListedFreeWhileLeased;
    var after := Run1(st, tid, now, freshId, order);
    StepWorkers(st, tid, now, freshId, order);
    StepLeases(st, tid, now, freshId, order);
    match st.tasks[tid]
    case RentMark(w, _) =>
      MarkingAWorker(st, w, LEASED);
      SameTables(after, UpdateWorker(st, w, LEASED));
    case StopFree(w) =>
      MarkingAWorker(st, w, AVAILABLE);
      SameTables(after, UpdateWorker(st, w, AVAILABLE));
    case ExpiryFree(w, _) =>
      MarkingAWorker(st, w, AVAILABLE);
      SameTables(after, UpdateWorker(st, w, AVAILABLE));
    case RentCreate(w, consumerId, durationSec) =>
      if freshId in st.leases {
        SameTables(after, st);
      } else {
        var lease := Lease(w, consumerId, now + durationSec, Active);
        CreatingLists(st, freshId, lease);
        SameTables(after, st.(leases := st.leases[freshId := lease]));
      }
    case StopComplete(id, _) =>
      CompletingListsNobody(st, id);
      SameTables(after, CompleteLease(st, id));
    case ExpiryComplete(todo) =>
      if todo == [] {
        SameTables(after, st);
      } else {
        CompletingListsNobody(st, todo[0]);
        SameTables(after, CompleteLease(st, todo[0]));
      }
    case _ =>
      SameTables(after, st);
  }

  lemma RegisteringLists(st: State, w: WorkerId)
    requires !ListedFreeWhileLeased(st)
    ensures ListedFreeWhileLeased(Next(st, RegisterWorker(w))) <==> HasActiveLease(st.leases, w)
  {
    hide HasActiveLease;
    if HasActiveLease(st.leases, w) {
      ListedFreeWitness(Next(st, RegisterWorker(w)), w);
    }
  }

  /** Exactly these events make a worker available and leased at once. */
  lemma ListedFreeExactly(st: State, e: Event)
    requires !ListedFreeWhileLeased(st)
    ensures ListedFreeWhileLeased(Next(st, e)) <==> FreesALeasedWorker(st, e)
  {
    hide HasActiveLease, ListedFreeWhileLeased;
    match e
    case Step(tid, now, freshId, order) =>
      if tid in st.tasks {
        StepListsExactly(st, tid, now, freshId, order);
      }
    case RegisterWorker(w) => RegisteringLists(st, w);
    case WorkerStatus(w, status) => MarkingAWorker(st, w, status);
    case Spawn(tid, task) => SameTables(st, Next(st, e));
  }

  // ------------------------------------------------------- what the lock is for

  /** A stop about to complete a lease knows its worker; about to free the worker, it finds no lease left. */
  predicate StopsKnowTheirWorker(st: State) {
    forall tid :: tid in st.tasks ==>
      && (st.tasks[tid].StopComplete? ==>
            forall x :: x in st.leases && st.leases[x].state == Active && st.leases[x].workerId == st.tasks[tid].workerId ==>
              x == st.tasks[tid].leaseId)
      && (st.tasks[tid].StopFree? ==> !HasActiveLease(st.leases, st.tasks[tid].workerId))
  }

  lemma StopTaskAfter(st: State, tid: nat, now: int, freshId: LeaseId, order: seq<string>)
    requires tid in st.tasks
    ensures var task := Run1(st, tid, now, freshId, order).tasks[tid];
            && (task.StopComplete? && task != st.tasks[tid] ==>
                  st.tasks[tid].StopGet? && task.leaseId in st.leases
                  && task == StopComplete(task.leaseId, st.leases[task.leaseId].workerId)
                  && st.leases[task.leaseId].state == Active)
            && (task.StopFree? && task != st.tasks[tid] ==>
                  st.tasks[tid].StopComplete? && task.workerId == st.tasks[tid].workerId)
            && (task.RentMark? && task != st.tasks[tid] ==>
                  st.tasks[tid].RentCreate? && task.target == st.tasks[tid].target)
            && (st.tasks[tid].StopComplete? ==> task == StopFree(st.tasks[tid].workerId))
            && (st.tasks[tid].StopFree? ==> task == Done)
  {
    hide Matching, HasActiveLease;
  }

  lemma StepKeepsStops(st: State, tid: nat, now: int, freshId: LeaseId, order: seq<string>)
    requires Safe(st) && StopsKnowTheirWorker(st) && tid in st.tasks
    ensures StopsKnowTheirWorker(Run1(st, tid, now, freshId, order))
  {
    hide Run1;
    var after := Run1(st, tid, now, freshId, order);
    StepLeases(st, tid, now, freshId, order);
    StepTask(st, tid, now, freshId, order);
    StopTaskAfter(st, tid, now, freshId, order);
    forall t, x | t in after.tasks && after.tasks[t].StopComplete? && x in after.leases
                  && after.leases[x].state == Active && after.leases[x].workerId == after.tasks[t].workerId
      ensures x == after.tasks[t].leaseId
    {
      assert st.tasks[tid].HoldsLock() ==> t == tid;
    }
    forall t | t in after.tasks && after.tasks[t].StopFree?
      ensures !HasActiveLease(after.leases, after.tasks[t].workerId)
    {
      assert st.tasks[tid].HoldsLock() ==> t == tid;
      if t != tid && st.tasks[tid].ExpiryComplete? && st.tasks[tid].todo != []
         && HasActiveLease(after.leases, after.tasks[t].workerId) {
        CompletingFreesOnly(st, st.tasks[tid].todo[0], after.tasks[t].workerId);
      }
    }
  }

  lemma {:induction false} StopsAreCareful(events: seq<Event>)
    ensures Safe(Run(events)) && StopsKnowTheirWorker(Run(events))
  {
    NeverTwoActiveLeases(events);
    if events == [] {
    } else {
      hide Run1, Safe;
      var n := |events| - 1;
      StopsAreCareful(events[..n]);
      match events[n]
      case Step(tid, now, freshId, order) =>
        if tid in Run(events[..n]).tasks {
          hide StopsKnowTheirWorker;
          StepKeepsStops(Run(events[..n]), tid, now, freshId, order);
        }
      case _ =>
    }
  }

  /** Over any run, a stop never frees a leased worker: only messages, the expiry pass and the middle of a rent can. */
  lemma StopsNeverFreeALeasedWorker(events: seq<Event>, e: Event)
    requires !ListedFreeWhileLeased(Run(events)) && ListedFreeWhileLeased(Next(Run(events), e))
    ensures e.RegisterWorker? || e.WorkerStatus?
            || (e.Step? && e.tid in Run(events).tasks
                && (Run(events).tasks[e.tid].ExpiryFree? || Run(events).tasks[e.tid].RentCreate?))
  {
    hide Next, ListedFreeWhileLeased, HasActiveLease, Run;
    StopsAreCareful(events);
    ListedFreeExactly(Run(events), e);
  }

  // ------------------------------------------------------------ runs left alone

  /** No worker known to the market reports itself available, and nobody starts an expiry pass. */
  predicate Quiet(st: State, e: Event) {
    match e
    case RegisterWorker(w) => w !in st.workers
    case WorkerStatus(_, status) => status != AVAILABLE
    case Spawn(_, task) => !task.ExpiryFind?
    case Step(_, _, _, _) => true
  }

  predicate QuietRun(events: seq<Event>) {
    events == []
    || (QuietRun(events[..|events| - 1]) && Quiet(Run(events[..|events| - 1]), events[|events| - 1]))
  }

  predicate KnownTask(workers: map<WorkerId, string>, task: Task) {
    match task
    case RentGetLease(candidate, rest, _, _) => candidate in workers && forall w :: w in rest ==> w in workers
    case RentCreate(target, _, _) => target in workers
    case ExpiryFind => false
    case ExpiryComplete(_) => false
    case ExpiryFree(_, _) => false
    case _ => true
  }

  /** Leases and rents are for known workers, and no expiry pass is under way. */
  predicate Known(st: State) {
    && (forall id :: id in st.leases ==> st.leases[id].workerId in st.workers)
    && (forall tid :: tid in st.tasks ==> KnownTask(st.workers, st.tasks[tid]))
  }

  /** A leased worker listed as available is about to be marked by the rent that leased it. */
  predicate BeingMarked(st: State) {
    forall w :: w in st.workers && st.workers[w] == AVAILABLE && HasActiveLease(st.leases, w) ==>
      exists tid :: tid in st.tasks && st.tasks[tid].RentMark? && st.tasks[tid].target == w
  }

  lemma KnownAfterRentStep(st: State, tid: nat, now: int, freshId: LeaseId, order: seq<string>)
    requires tid in st.tasks && KnownTask(st.workers, st.tasks[tid])
    ensures KnownTask(st.workers, Run1(st, tid, now, freshId, order).tasks[tid])
  {
    hide HasActiveLease;
    var task := st.tasks[tid];
    if task.RentGetLease? && task.rest != [] {
      assert forall w :: w in task.rest[1..] ==> w in task.rest;
    } else if task.RentListWorkers? {
      var listed := Matching(order, w => w in st.workers && st.workers[w] == AVAILABLE);
      assert forall w :: w in listed ==> w in st.workers;
      if listed != [] {
        assert forall w :: w in listed[1..] ==> w in listed;
      }
    }
  }

  lemma StepKeepsKnown(st: State, tid: nat, now: int, freshId: LeaseId, order: seq<string>)
    requires Known(st) && tid in st.tasks
    ensures Known(Run1(st, tid, now, freshId, order))
  {
    KnownAfterRentStep(st, tid, now, freshId, order);
    StepWorkers(st, tid, now, freshId, order);
    StepLeases(st, tid, now, freshId, order);
    StepTask(st, tid, now, freshId, order);
    hide Run1, HasActiveLease;
    var after := Run1(st, tid, now, freshId, order);
    assert after.workers.Keys == st.workers.Keys;
    forall t | t in after.tasks ensures KnownTask(after.workers, after.tasks[t]) {
      if t != tid {
        assert after.tasks[t] == st.tasks[t];
      }
    }
  }

  lemma LeasedAfterStep(st: State, task: Task, now: int, freshId: LeaseId, w: WorkerId)
    requires HasActiveLease(LeasesAfter(st, task, now, freshId), w)
    ensures HasActiveLease(st.leases, w) || (task.RentCreate? && freshId !in st.leases && w == task.target)
  {
    match task
    case RentCreate(target, consumerId, durationSec) =>
      if freshId !in st.leases {
        CreatingAddsOne(st.leases, freshId, Lease(target, consumerId, now + durationSec, Active), w);
      }
    case StopComplete(id, _) => CompletingFreesOnly(st, id, w);
    case ExpiryComplete(todo) => if todo != [] { CompletingFreesOnly(st, todo[0], w); }
    case _ =>
  }

  lemma RentStepMarks(st: State, tid: nat, now: int, freshId: LeaseId, order: seq<string>)
    requires tid in st.tasks && st.tasks[tid].RentCreate? && freshId !in st.leases
    ensures Run1(st, tid, now, freshId, order).tasks[tid] == RentMark(st.tasks[tid].target, freshId)
  {
  }

  lemma StepKeepsBeingMarked(st: State, tid: nat, now: int, freshId: LeaseId, order: seq<string>)
    requires Safe(st) && StopsKnowTheirWorker(st) && Known(st) && BeingMarked(st) && tid in st.tasks
    ensures BeingMarked(Run1(st, tid, now, freshId, order))
  {
    var after := Run1(st, tid, now, freshId, order);
    var task := st.tasks[tid];
    StepWorkers(st, tid, now, freshId, order);
    StepLeases(st, tid, now, freshId, order);
    StepTask(st, tid, now, freshId, order);
    if task.RentCreate? && freshId !in st.leases {
      RentStepMarks(st, tid, now, freshId, order);
    }
    hide Run1, HasActiveLease;
    assert KnownTask(st.workers, task);
    forall w | w in after.workers && after.workers[w] == AVAILABLE && HasActiveLease(after.leases, w)
      ensures exists t :: t in after.tasks && after.tasks[t].RentMark? && after.tasks[t].target == w
    {
      LeasedAfterStep(st, task, now, freshId, w);
      if HasActiveLease(st.leases, w) {
        assert st.workers[w] == AVAILABLE;
        var t :| t in st.tasks && st.tasks[t].RentMark? && st.tasks[t].target == w;
        assert t != tid;
        assert after.tasks[t] == st.tasks[t];
      } else {
        assert after.tasks[tid].RentMark? && after.tasks[tid].target == w;
      }
    }
  }

  lemma QuietEventKeeps(st: State, e: Event)
    requires Safe(st) && StopsKnowTheirWorker(st) && Known(st) && BeingMarked(st) && Quiet(st, e)
    ensures Known(Next(st, e)) && BeingMarked(Next(st, e))
  {
    match e
    case Step(tid, now, freshId, order) =>
      if tid in st.tasks {
        hide Known, BeingMarked, Safe, StopsKnowTheirWorker, Run1;
        StepKeepsKnown(st, tid, now, freshId, order);
        StepKeepsBeingMarked(st, tid, now, freshId, order);
      }
    case RegisterWorker(w) =>
      hide KnownTask;
      assert forall id :: id in st.leases ==> st.leases[id].workerId != w;
      MoreWorkersKnown(st, st.workers[w := AVAILABLE]);
    case WorkerStatus(w, status) =>
      MoreWorkersKnown(st, Next(st, e).workers);
    case Spawn(tid, task) =>
      var after := Next(st, e);
      forall x | x in after.workers && after.workers[x] == AVAILABLE && HasActiveLease(after.leases, x)
        ensures exists t :: t in after.tasks && after.tasks[t].RentMark? && after.tasks[t].target == x
      {
        var t :| t in st.tasks && st.tasks[t].RentMark? && st.tasks[t].target == x;
        assert after.tasks[t] == st.tasks[t];
      }
  }

  lemma MoreWorkersKnown(st: State, workers: map<WorkerId, string>)
    requires Known(st) && st.workers.Keys <= workers.Keys
    ensures forall tid :: tid in st.tasks ==> KnownTask(workers, st.tasks[tid])
  {
    forall tid | tid in st.tasks ensures KnownTask(workers, st.tasks[tid]) {
      assert KnownTask(st.workers, st.tasks[tid]);
      assert forall w :: w in st.workers ==> w in workers;
    }
  }

  lemma {:induction false} QuietRunKeeps(events: seq<Event>)
    requires QuietRun(events)
    ensures Known(Run(events)) && BeingMarked(Run(events))
  {
    if events == [] {
    } else {
      hide Known, BeingMarked, Next, Safe, StopsKnowTheirWorker;
      QuietRunKeeps(events[..|events| - 1]);
      StopsAreCareful(events[..|events| - 1]);
      QuietEventKeeps(Run(events[..|events| - 1]), events[|events| - 1]);
    }
  }

  /** Left to rents and stops, the market is right whenever the lock is free: whoever is listed has no lease. */
  lemma QuietRunsListCorrectly(events: seq<Event>)
    requires QuietRun(events) && Run(events).lock == None
    ensures !ListedFreeWhileLeased(Run(events))
  {
    hide Run, HasActiveLease, StopsKnowTheirWorker, Known;
    QuietRunKeeps(events);
    NeverTwoActiveLeases(events);
  }

  // ------------------------------------------------------------------- progress

  lemma {:induction false} RunMore(events: seq<Event>, st: State, more: seq<Event>)
    requires Run(events) == st
    ensures Run(events + more) == Continue(st, more)
    decreases |more|
  {
    if more == [] {
      assert events + more == events;
    } else {
      RunOneMore(events, more[0]);
      RunMore(events + [more[0]], Next(st, more[0]), more[1..]);
      assert events + more == events + [more[0]] + more[1..];
    }
  }

  function Continue(st: State, more: seq<Event>): State
    decreases |more|
  {
    if more == [] then st else Continue(Next(st, more[0]), more[1..])
  }

  /** Own steps until the lock is back, when no listing returns more than `rows` workers. */
  function StepsLeft(task: Task, rows: nat): nat {
    match task
    case RentGetWorker(_, _, _) => 4
    case RentListWorkers(_, _) => 3 + rows
    case RentGetLease(_, rest, _, _) => 3 + |rest|
    case RentCreate(_, _, _) => 2
    case RentMark(_, _) => 1
    case StopGet(_) => 3
    case StopComplete(_, _) => 2
    case StopFree(_) => 1
    case _ => 0
  }

  lemma {:induction false} MatchingIsNoLonger(order: seq<string>, keep: string -> bool)
    ensures |Matching(order, keep)| <= |order|
  {
    if order == [] {
    } else {
      MatchingIsNoLonger(order[1..], keep);
    }
  }

  /** What the database promises of a step: a listing of at most `rows` workers, and a new identifier. */
  predicate Fair(st: State, e: Event, rows: nat) {
    e.Step? ==> |e.order| <= rows && e.freshId !in st.leases
  }

  lemma OwnStepAdvances(st: State, tid: nat, now: int, freshId: LeaseId, order: seq<string>, rows: nat)
    requires tid in st.tasks && st.tasks[tid].HoldsLock()
    requires |order| <= rows && freshId !in st.leases
    ensures var task := Run1(st, tid, now, freshId, order).tasks[tid];
            && (task.HoldsLock() || task == Done)
            && StepsLeft(task, rows) < StepsLeft(st.tasks[tid], rows)
  {
    hide HasActiveLease, Matching;
    MatchingIsNoLonger(order, w => w in st.workers && st.workers[w] == AVAILABLE);
  }

  function OwnSteps(events: seq<Event>, tid: nat): nat {
    if events == [] then 0
    else (if events[0].Step? && events[0].tid == tid then 1 else 0) + OwnSteps(events[1..], tid)
  }

  predicate FairRun(st: State, events: seq<Event>, rows: nat)
    decreases |events|
  {
    events == [] || (Fair(st, events[0], rows) && FairRun(Next(st, events[0]), events[1..], rows))
  }

  lemma EventAdvances(st: State, tid: nat, e: Event, rows: nat)
    requires tid in st.tasks && (st.tasks[tid].HoldsLock() || st.tasks[tid] == Done) && Fair(st, e, rows)
    ensures tid in Next(st, e).tasks
    ensures var task := Next(st, e).tasks[tid];
            && (task.HoldsLock() || task == Done)
            && StepsLeft(task, rows) <= StepsLeft(st.tasks[tid], rows)
            && (e.Step? && e.tid == tid && st.tasks[tid] != Done ==> StepsLeft(task, rows) < StepsLeft(st.tasks[tid], rows))
  {
    match e
    case Step(t, now, freshId, order) =>
      if t in st.tasks {
        if t == tid && st.tasks[tid].HoldsLock() {
          OwnStepAdvances(st, tid, now, freshId, order, rows);
        } else {
          StepTask(st, t, now, freshId, order);
          hide Run1;
        }
      }
    case _ =>
  }

  lemma {:induction false} HolderFinishes(st: State, tid: nat, events: seq<Event>, rows: nat)
    requires tid in st.tasks && (st.tasks[tid].HoldsLock() || st.tasks[tid] == Done)
    requires FairRun(st, events, rows) && StepsLeft(st.tasks[tid], rows) <= OwnSteps(events, tid)
    ensures tid in Continue(st, events).tasks && Continue(st, events).tasks[tid] == Done
    decreases |events|
  {
    if events == [] {
    } else {
      hide Next;
      EventAdvances(st, tid, events[0], rows);
      HolderFinishes(Next(st, events[0]), tid, events[1..], rows);
    }
  }

  /**
    Whoever holds the lock in a reachable state has given it back once it has taken as many of its own steps as
    it has left, whatever else happens in between: the lock never stays with anyone for ever.
   */
  lemma LockIsGivenBack(history: seq<Event>, tid: nat, events: seq<Event>, rows: nat)
    requires Run(history).lock == Some(tid) && FairRun(Run(history), events, rows)
    requires tid in Run(history).tasks && StepsLeft(Run(history).tasks[tid], rows) <= OwnSteps(events, tid)
    ensures Run(history + events).lock != Some(tid)
  {
    hide Run, Run1, Next, Continue, FairRun;
    NeverTwoActiveLeases(history);
    NeverTwoActiveLeases(history + events);
    HolderFinishes(Run(history), tid, events, rows);
    RunMore(history, Run(history), events);
  }

  // ------------------------------------------------------------ the expiry race

  lemma ContinueOnce(st: State, e: Event, more: seq<Event>)
    ensures Continue(st, [e] + more) == Continue(Next(st, e), more)
  {
  }

  lemma ContinueSix(st: State, e: Event, f: Event)
    ensures Continue(st, [e, f, f, f, f, f])
         == Next(Next(Next(Next(Next(Next(st, e), f), f), f), f), f)
  {
    hide Next;
    var s1 := Next(st, e);
    var s2 := Next(s1, f);
    var s3 := Next(s2, f);
    var s4 := Next(s3, f);
    var s5 := Next(s4, f);
    ContinueOnce(st, e, [f, f, f, f, f]);
    ContinueOnce(s1, f, [f, f, f, f]);
    ContinueOnce(s2, f, [f, f, f]);
    ContinueOnce(s3, f, [f, f]);
    ContinueOnce(s4, f, [f]);
    ContinueOnce(s5, f, []);
    assert [f, f, f, f, f] == [f] + [f, f, f, f] && [f, f, f, f] == [f] + [f, f, f];
    assert [f, f, f] == [f] + [f, f] && [f, f] == [f] + [f] && [f] == [f] + [];
    assert [e, f, f, f, f, f] == [e] + [f, f, f, f, f];
  }

  /** Rent the free worker `w` under lease `id`, from an idle lock to its release. */
  lemma RentingRun(st: State, tid: nat, w: WorkerId, id: LeaseId)
    requires st.lock == None && tid !in st.tasks && w in st.workers && st.workers[w] == AVAILABLE
    requires !HasActiveLease(st.leases, w) && id !in st.leases
    ensures Continue(st, RentEvents(tid, w, id))
         == State(st.workers[w := LEASED], st.leases[id := Lease(w, "c", 0, Active)], None, st.tasks[tid := Done])
  {
    hide Continue, HasActiveLease, Next, Run1;
    var e := Step(tid, 0, id, []);
    ChoosingRun(st, tid, w, id);
    LeasingRun(st, tid, w, id);
    ContinueSix(st, Spawn(tid, RentQueued(Some(w), "c", 0)), e);
  }

  /** Take the lock and look the worker up. */
  lemma ChoosingRun(st: State, tid: nat, w: WorkerId, id: LeaseId)
    requires st.lock == None && tid !in st.tasks && w in st.workers && st.workers[w] == AVAILABLE
    ensures var e := Step(tid, 0, id, []);
            Next(Next(Next(st, Spawn(tid, RentQueued(Some(w), "c", 0))), e), e)
            == State(st.workers, st.leases, Some(tid), st.tasks[tid := RentGetLease(w, [], "c", 0)])
  {
    hide HasActiveLease, Matching;
    var e := Step(tid, 0, id, []);
    var s1 := Next(st, Spawn(tid, RentQueued(Some(w), "c", 0)));
    assert s1 == State(st.workers, st.leases, None, st.tasks[tid := RentQueued(Some(w), "c", 0)]);
    assert Next(s1, e) == State(st.workers, st.leases, Some(tid), st.tasks[tid := RentGetWorker(w, "c", 0)]);
  }

  /** Find no lease, make one, mark the worker and give the lock back. */
  lemma LeasingRun(st: State, tid: nat, w: WorkerId, id: LeaseId)
    requires w in st.workers && !HasActiveLease(st.leases, w) && id !in st.leases
    ensures var e := Step(tid, 0, id, []);
            Next(Next(Next(State(st.workers, st.leases, Some(tid), st.tasks[tid := RentGetLease(w, [], "c", 0)]), e), e), e)
            == State(st.workers[w := LEASED], st.leases[id := Lease(w, "c", 0, Active)], None, st.tasks[tid := Done])
  {
    hide HasActiveLease, Matching;
    var e := Step(tid, 0, id, []);
    var s3 := State(st.workers, st.leases, Some(tid), st.tasks[tid := RentGetLease(w, [], "c", 0)]);
    var s4 := State(st.workers, st.leases, Some(tid), st.tasks[tid := RentCreate(w, "c", 0)]);
    assert Next(s3, e) == s4;
    assert Next(s4, e)
        == State(st.workers, st.leases[id := Lease(w, "c", 0, Active)], Some(tid), st.tasks[tid := RentMark(w, id)]);
  }

  function RentEvents(tid: nat, w: WorkerId, id: LeaseId): seq<Event> {
    var e := Step(tid, 0, id, []);
    [Spawn(tid, RentQueued(Some(w), "c", 0)), e, e, e, e, e]
  }

  /** An expiry pass up to the point where it has completed lease `id` and not yet freed the worker. */
  lemma ExpiryHalfRun(st: State, tid: nat, w: WorkerId, id: LeaseId)
    requires tid !in st.tasks && id in st.leases && st.leases[id] == Lease(w, "c", 0, Active)
    ensures Continue(st, [Spawn(tid, ExpiryFind), Step(tid, 1, id, [id]), Step(tid, 1, id, [id])])
         == st.(leases := st.leases[id := Lease(w, "c", 0, Completed)], tasks := st.tasks[tid := ExpiryFree(w, [])])
  {
    var e := Step(tid, 1, id, [id]);
    var s1 := Next(st, Spawn(tid, ExpiryFind));
    var s2 := Next(s1, e);
    assert Matching([id], x => x in s1.leases && s1.leases[x].state == Active && s1.leases[x].expiresAt < 1) == [id] by {
      assert [id][1..] == [];
    }
    assert s2.tasks[tid] == ExpiryComplete([id]);
    assert [id][1..] == [];
    var s3 := Next(s2, e);
    assert s3.tasks[tid] == ExpiryFree(w, []);
    assert [e][1..] == [] && [e, e][1..] == [e] && [Spawn(tid, ExpiryFind), e, e][1..] == [e, e];
    assert Continue(s3, []) == s3;
    assert Continue(s2, [e]) == s3;
    assert Continue(s1, [e, e]) == s3;
  }

  /** Register `w` and rent it. */
  lemma RentedRun(w: WorkerId, a: LeaseId) returns (history: seq<Event>)
    ensures Run(history) == State(map[w := LEASED], map[a := Lease(w, "c", 0, Active)], None, map[1 := Done])
  {
    var s0 := State(map[w := AVAILABLE], map[], None, map[]);
    var h0 := [] + [RegisterWorker(w)];
    assert Run(h0) == s0 by { RunOneMore([], RegisterWorker(w)); }
    assert !HasActiveLease(s0.leases, w);
    hide Run, Run1, Continue, RentEvents, Next, HasActiveLease;
    RentingRun(s0, 1, w, a);
    RunMore(h0, s0, RentEvents(1, w, a));
    history := h0 + RentEvents(1, w, a);
    assert s0.workers[w := LEASED] == map[w := LEASED];
  }

  /** Rent `w`, complete the lease in half an expiry pass, and let the worker report itself available. */
  lemma HalfExpiredRun(w: WorkerId, a: LeaseId) returns (history: seq<Event>)
    ensures Run(history)
         == State(map[w := AVAILABLE], map[a := Lease(w, "c", 0, Completed)], None, map[1 := Done, 2 := ExpiryFree(w, [])])
  {
    var half := [Spawn(2, ExpiryFind), Step(2, 1, a, [a]), Step(2, 1, a, [a])];
    var s1 := State(map[w := LEASED], map[a := Lease(w, "c", 0, Active)], None, map[1 := Done]);
    hide Run, Run1, Continue, RentEvents, HasActiveLease;
    var h1 := RentedRun(w, a);
    ExpiryHalfRun(s1, 2, w, a);
    RunMore(h1, s1, half);
    RunOneMore(h1 + half, WorkerStatus(w, AVAILABLE));
    history := h1 + half + [WorkerStatus(w, AVAILABLE)];
  }

  lemma NoActiveLeaseLeft(w: WorkerId, a: LeaseId)
    ensures !HasActiveLease(map[a := Lease(w, "c", 0, Completed)], w)
  {
  }

  /** Then rent the worker again, the first expiry pass still waiting to free it. */
  lemma RentedAgainRun(w: WorkerId, a: LeaseId, b: LeaseId) returns (history: seq<Event>)
    requires a != b
    ensures Run(history)
         == State(map[w := AVAILABLE][w := LEASED],
                  map[a := Lease(w, "c", 0, Completed)][b := Lease(w, "c", 0, Active)], None,
                  map[1 := Done, 2 := ExpiryFree(w, [])][3 := Done])
  {
    hide Run, Run1, Continue, RentEvents, HasActiveLease, Next;
    var st := State(map[w := AVAILABLE], map[a := Lease(w, "c", 0, Completed)], None, map[1 := Done, 2 := ExpiryFree(w, [])]);
    var half := HalfExpiredRun(w, a);
    NoActiveLeaseLeft(w, a);
    RentingRun(st, 3, w, b);
    RunMore(half, st, RentEvents(3, w, b));
    history := half + RentEvents(3, w, b);
  }

  /** With the lock free and nothing amiss, the second half of an expiry pass lists a leased worker. */
  predicate ExpiryRaces(st: State, e: Event) {
    && st.lock == None && !ListedFreeWhileLeased(st)
    && e.Step? && e.tid in st.tasks && st.tasks[e.tid].ExpiryFree?
    && ListedFreeWhileLeased(Next(st, e))
  }

  lemma RentedAgainRaces(st: State, w: WorkerId, b: LeaseId)
    requires st.lock == None && st.workers == map[w := LEASED]
    requires 2 in st.tasks && st.tasks[2] == ExpiryFree(w, [])
    requires b in st.leases && st.leases[b] == Lease(w, "c", 0, Active)
    ensures ExpiryRaces(st, Step(2, 0, b, []))
  {
    hide Run1;
    assert HasActiveLease(st.leases, w);
    ListedFreeExactly(st, Step(2, 0, b, []));
  }

  /** The race is reachable: an expiry pass completes a lease, the worker is rented again, the pass frees it. */
  lemma ExpiryRaceIsReachable(w: WorkerId, a: LeaseId, b: LeaseId)
    requires a != b
    ensures exists events, e :: ExpiryRaces(Run(events), e)
  {
    hide Run, Next, ExpiryRaces, HasActiveLease;
    var history := RentedAgainRun(w, a, b);
    assert map[w := AVAILABLE][w := LEASED] == map[w := LEASED];
    RentedAgainRaces(Run(history), w, b);
    assert ExpiryRaces(Run(history), Step(2, 0, b, []));
  }
}
