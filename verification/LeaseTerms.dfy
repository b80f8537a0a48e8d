/** What leases of LeaseMarket are made of, and what ends them. */
module LeaseTerms {
  import opened Numbers
  import opened LeaseMarket

  // ---------------------------------------------------------------- the steps

  /** The expiry pass takes exactly the active leases the query returned that have run out. */
  lemma ExpiryTakesExactly(st: State, tid: nat, now: int, freshId: LeaseId, order: seq<string>, id: LeaseId)
    requires tid in st.tasks && st.tasks[tid].ExpiryFind?
    ensures var task := Run1(st, tid, now, freshId, order).tasks[tid];
            && task.ExpiryComplete?
            && (id in task.todo <==>
                  id in order && id in st.leases && st.leases[id].state == Active && st.leases[id].expiresAt < now)
  {
  }

  /** The pass completes the first lease of its list, goes on to free that lease's worker, and ends with its list. */
  lemma ExpiryWorksThroughItsList(st: State, tid: nat, now: int, freshId: LeaseId, order: seq<string>)
    requires tid in st.tasks && st.tasks[tid].ExpiryComplete?
    ensures var (todo, after) := (st.tasks[tid].todo, Run1(st, tid, now, freshId, order));
            && (after.tasks[tid] == Done <==> todo == [])
            && (todo != [] ==> after.tasks[tid].todo == todo[1..])
            && (todo != [] && todo[0] in st.leases ==>
                  && after.leases == st.leases[todo[0] := st.leases[todo[0]].(state := Completed)]
                  && after.tasks[tid] == ExpiryFree(st.leases[todo[0]].workerId, todo[1..]))
  {
  }

  /** A rent goes on to just the available workers: the one asked for, or those listed, in the order listed. */
  lemma RentConsidersExactly(st: State, tid: nat, now: int, freshId: LeaseId, order: seq<string>, w: WorkerId)
    requires tid in st.tasks && (st.tasks[tid].RentGetWorker? || st.tasks[tid].RentListWorkers?)
    ensures var task := Run1(st, tid, now, freshId, order).tasks[tid];
            && (task.RentGetLease? || task == Done)
            && (task.RentGetLease? && w in [task.candidate] + task.rest <==>
                  && w in st.workers && st.workers[w] == AVAILABLE
                  && (if st.tasks[tid].RentGetWorker? then w == st.tasks[tid].wantedId else w in order))
  {
    hide HasActiveLease;
    if st.tasks[tid].RentListWorkers? {
      var listed := Matching(order, w => w in st.workers && st.workers[w] == AVAILABLE);
      assert listed != [] ==> listed == [listed[0]] + listed[1..];
    }
  }

  /** The first considered worker without an active lease is leased; when none is left the rent ends empty-handed. */
  lemma RentLeasesTheFirstFree(st: State, tid: nat, now: int, freshId: LeaseId, order: seq<string>)
    requires tid in st.tasks && st.tasks[tid].RentGetLease?
    ensures var before := st.tasks[tid];
            var task := Run1(st, tid, now, freshId, order).tasks[tid];
            && (task.RentCreate? <==> !HasActiveLease(st.leases, before.candidate))
            && (task.RentCreate? ==> task.target == before.candidate)
            && (task.RentGetLease? <==> HasActiveLease(st.leases, before.candidate) && before.rest != [])
            && (task.RentGetLease? ==> [task.candidate] + task.rest == before.rest)
            && (task.RentCreate? || task.RentGetLease? || task == Done)
  {
    hide HasActiveLease;
  }

  // --------------------------------------------------------- where leases come from

  /** Somebody asked for `durationSec` in the name of `consumerId`, for any worker or for `w`. */
  predicate Asked(events: seq<Event>, consumerId: string, durationSec: int, w: WorkerId) {
    exists j :: 0 <= j < |events| && AskedAt(events, j, consumerId, durationSec, w)
  }

  predicate AskedAt(events: seq<Event>, j: nat, consumerId: string, durationSec: int, w: WorkerId)
    requires j < |events|
  {
    events[j].Spawn? && events[j].task.RentQueued?
    && events[j].task.consumerId == consumerId && events[j].task.durationSec == durationSec
    && (events[j].task.wanted.Some? ==> events[j].task.wanted.value == w)
  }

  ghost predicate AskedForAny(events: seq<Event>, consumerId: string, durationSec: int) {
    forall w :: Asked(events, consumerId, durationSec, w)
  }

  ghost predicate TaskAsked(events: seq<Event>, task: Task) {
    match task
    case RentQueued(wanted, c, d) =>
      if wanted.Some? then Asked(events, c, d, wanted.value) else AskedForAny(events, c, d)
    case RentGetWorker(w, c, d) => Asked(events, c, d, w)
    case RentListWorkers(c, d) => AskedForAny(events, c, d)
    case RentGetLease(w, rest, c, d) => Asked(events, c, d, w) && forall x :: x in rest ==> Asked(events, c, d, x)
    case RentCreate(w, c, d) => Asked(events, c, d, w)
    case _ => true
  }

  /** Created by a step that drew its id, for a time somebody asked for, counted from that step. */
  ghost predicate LeaseAsked(events: seq<Event>, id: LeaseId, lease: Lease) {
    exists j, d :: 0 <= j < |events| && events[j].Step? && events[j].freshId == id
                   && lease.expiresAt == events[j].now + d && Asked(events, lease.consumerId, d, lease.workerId)
  }

  ghost predicate AllAsked(events: seq<Event>, st: State) {
    && (forall tid :: tid in st.tasks ==> TaskAsked(events, st.tasks[tid]))
    && (forall id :: id in st.leases ==> LeaseAsked(events, id, st.leases[id]))
  }

  lemma AskedStays(events: seq<Event>, e: Event, consumerId: string, durationSec: int, w: WorkerId)
    requires Asked(events, consumerId, durationSec, w)
    ensures Asked(events + [e], consumerId, durationSec, w)
  {
    var j :| 0 <= j < |events| && AskedAt(events, j, consumerId, durationSec, w);
    assert AskedAt(events + [e], j, consumerId, durationSec, w);
  }

  lemma TaskAskedStays(events: seq<Event>, e: Event, task: Task)
    requires TaskAsked(events, task)
    ensures TaskAsked(events + [e], task)
  {
    hide Asked;
    forall c, d, w | Asked(events, c, d, w) ensures Asked(events + [e], c, d, w) {
      AskedStays(events, e, c, d, w);
    }
  }

  lemma LeaseAskedStays(events: seq<Event>, e: Event, id: LeaseId, lease: Lease)
    requires LeaseAsked(events, id, lease)
    ensures LeaseAsked(events + [e], id, lease)
  {
    hide Asked;
    var j, d :| 0 <= j < |events| && events[j].Step? && events[j].freshId == id
                && lease.expiresAt == events[j].now + d && Asked(events, lease.consumerId, d, lease.workerId);
    AskedStays(events, e, lease.consumerId, d, lease.workerId);
    assert (events + [e])[j] == events[j];
  }

  lemma StepAsksTheSame(events: seq<Event>, st: State, tid: nat, now: int, freshId: LeaseId, order: seq<string>)
    requires tid in st.tasks && TaskAsked(events, st.tasks[tid])
    ensures TaskAsked(events, Run1(st, tid, now, freshId, order).tasks[tid])
  {
    var task := st.tasks[tid];
    if task.RentQueued? || task.RentGetWorker? || task.RentListWorkers? || task.RentGetLease? {
      RentAsksTheSame(events, st, tid, now, freshId, order);
    } else {
      hide Asked, HasActiveLease, Matching, UpdateWorker, CompleteLease;
    }
  }

  lemma RentAsksTheSame(events: seq<Event>, st: State, tid: nat, now: int, freshId: LeaseId, order: seq<string>)
    requires tid in st.tasks && TaskAsked(events, st.tasks[tid])
    requires st.tasks[tid].RentQueued? || st.tasks[tid].RentGetWorker? || st.tasks[tid].RentListWorkers?
             || st.tasks[tid].RentGetLease?
    ensures TaskAsked(events, Run1(st, tid, now, freshId, order).tasks[tid])
  {
    hide Asked, HasActiveLease, UpdateWorker, CompleteLease;
    var task := st.tasks[tid];
    if task.RentGetLease? && task.rest != [] {
      assert forall x :: x in task.rest[1..] ==> x in task.rest;
    }
  }

  lemma StepLeaseAsked(
    events: seq<Event>, st: State, tid: nat, now: int, freshId: LeaseId, order: seq<string>, id: LeaseId)
    requires AllAsked(events, st) && tid in st.tasks
    requires id in LeasesAfter(st, st.tasks[tid], now, freshId)
    ensures LeaseAsked(events + [Step(tid, now, freshId, order)], id, LeasesAfter(st, st.tasks[tid], now, freshId)[id])
  {
    hide Asked;
    var e := Step(tid, now, freshId, order);
    var task := st.tasks[tid];
    assert TaskAsked(events, task);
    if id in st.leases {
      LeaseAskedStays(events, e, id, st.leases[id]);
    } else {
      assert task.RentCreate? && id == freshId;
      AskedStays(events, e, task.consumerId, task.durationSec, task.target);
      var all := events + [e];
      assert all[|events|] == e;
      assert all[|events|].Step? && all[|events|].freshId == id;
    }
  }

  lemma EventKeepsAsked(events: seq<Event>, st: State, e: Event)
    requires AllAsked(events, st)
    ensures AllAsked(events + [e], Next(st, e))
  {
    hide Run1, TaskAsked, LeaseAsked;
    forall task | TaskAsked(events, task) ensures TaskAsked(events + [e], task) {
      TaskAskedStays(events, e, task);
    }
    match e
    case Step(tid, now, freshId, order) =>
      if tid in st.tasks {
        StepTask(st, tid, now, freshId, order);
        StepLeases(st, tid, now, freshId, order);
        StepAsksTheSame(events, st, tid, now, freshId, order);
        var after := Run1(st, tid, now, freshId, order);
        forall id | id in after.leases ensures LeaseAsked(events + [e], id, after.leases[id]) {
          StepLeaseAsked(events, st, tid, now, freshId, order, id);
        }
      } else {
        forall id | id in st.leases ensures LeaseAsked(events + [e], id, st.leases[id]) {
          LeaseAskedStays(events, e, id, st.leases[id]);
        }
      }
    case Spawn(tid, task) =>
      if task.Initial() {
        SpawnIsAsked(events, tid, task);
      }
      forall id | id in st.leases ensures LeaseAsked(events + [e], id, st.leases[id]) {
        LeaseAskedStays(events, e, id, st.leases[id]);
      }
    case _ =>
      forall id | id in st.leases ensures LeaseAsked(events + [e], id, st.leases[id]) {
        LeaseAskedStays(events, e, id, st.leases[id]);
      }
  }

  lemma SpawnIsAsked(events: seq<Event>, tid: nat, task: Task)
    requires task.Initial()
    ensures TaskAsked(events + [Spawn(tid, task)], task)
  {
    var all := events + [Spawn(tid, task)];
    if task.RentQueued? {
      assert all[|events|].task == task;
      forall w | task.wanted.Some? ==> task.wanted.value == w ensures Asked(all, task.consumerId, task.durationSec, w) {
        assert AskedAt(all, |events|, task.consumerId, task.durationSec, w);
      }
    }
  }

  /**
    Every lease of every run is one somebody asked for: it names that consumer and the worker asked for, if one
    was, and expires the time asked for after the step that made it.
   */
  lemma {:induction false} LeasesAreAskedFor(events: seq<Event>)
    ensures AllAsked(events, Run(events))
  {
    if events == [] {
    } else {
      var n := |events| - 1;
      LeasesAreAskedFor(events[..n]);
      EventKeepsAsked(events[..n], Run(events[..n]), events[n]);
      assert events == events[..n] + [events[n]];
    }
  }

  // --------------------------------------------------------- what ends a lease

  /** Nobody asks to stop the lease, and no step comes after `until`. */
  predicate LeftToRun(e: Event, id: LeaseId, until: int) {
    && (e.Spawn? && e.task.StopQueued? ==> e.task.leaseId != id)
    && (e.Step? ==> e.now <= until)
  }

  predicate NotStopping(task: Task, id: LeaseId) {
    Stopping(task) ==> task.leaseId != id
  }

  function Doomed(task: Task): seq<LeaseId> {
    if task.ExpiryComplete? || task.ExpiryFree? then task.todo else []
  }

  predicate Kept(st: State, id: LeaseId, until: int) {
    && (forall tid :: tid in st.tasks ==> NotStopping(st.tasks[tid], id))
    && (forall tid :: tid in st.tasks && id in Doomed(st.tasks[tid]) ==> id in st.leases && st.leases[id].expiresAt < until)
    && (id in st.leases && until <= st.leases[id].expiresAt ==> st.leases[id].state == Active)
  }

  lemma StepStopsNothingElse(st: State, tid: nat, now: int, freshId: LeaseId, order: seq<string>, id: LeaseId)
    requires tid in st.tasks && NotStopping(st.tasks[tid], id)
    ensures NotStopping(Run1(st, tid, now, freshId, order).tasks[tid], id)
  {
    hide Run1;
    var task := st.tasks[tid];
    if Stopping(task) {
      StopGoesOn(st, tid, now, freshId, order);
    } else if task.RentQueued? || task.RentGetWorker? || task.RentListWorkers? || task.RentGetLease? {
      RentStopsNothing(st, tid, now, freshId, order);
    } else {
      OthersStopNothing(st, tid, now, freshId, order);
    }
  }

  predicate Stopping(task: Task) {
    task.StopQueued? || task.StopGet? || task.StopComplete?
  }

  lemma StopGoesOn(st: State, tid: nat, now: int, freshId: LeaseId, order: seq<string>)
    requires tid in st.tasks && Stopping(st.tasks[tid])
    ensures var task := Run1(st, tid, now, freshId, order).tasks[tid];
            Stopping(task) ==> task.leaseId == st.tasks[tid].leaseId
  {
  }

  lemma RentStopsNothing(st: State, tid: nat, now: int, freshId: LeaseId, order: seq<string>)
    requires tid in st.tasks
    requires st.tasks[tid].RentQueued? || st.tasks[tid].RentGetWorker? || st.tasks[tid].RentListWorkers?
             || st.tasks[tid].RentGetLease?
    ensures !Stopping(Run1(st, tid, now, freshId, order).tasks[tid])
  {
    hide HasActiveLease, Matching;
  }

  lemma OthersStopNothing(st: State, tid: nat, now: int, freshId: LeaseId, order: seq<string>)
    requires tid in st.tasks && !Stopping(st.tasks[tid])
    requires !st.tasks[tid].RentQueued? && !st.tasks[tid].RentGetWorker? && !st.tasks[tid].RentListWorkers?
             && !st.tasks[tid].RentGetLease?
    ensures !Stopping(Run1(st, tid, now, freshId, order).tasks[tid])
  {
    hide UpdateWorker, CompleteLease;
  }

  lemma StepDooms(st: State, tid: nat, now: int, freshId: LeaseId, order: seq<string>, id: LeaseId)
    requires tid in st.tasks && id in Doomed(Run1(st, tid, now, freshId, order).tasks[tid])
    ensures id in Doomed(st.tasks[tid]) || (id in st.leases && st.leases[id].expiresAt < now)
  {
    hide Run1;
    if st.tasks[tid].ExpiryFind? {
      ExpiryTakesExactly(st, tid, now, freshId, order, id);
    } else if st.tasks[tid].ExpiryComplete? || st.tasks[tid].ExpiryFree? {
      ExpiryGoesOn(st, tid, now, freshId, order, id);
    } else {
      OthersDoomNothing(st, tid, now, freshId, order);
    }
  }

  lemma ExpiryGoesOn(st: State, tid: nat, now: int, freshId: LeaseId, order: seq<string>, id: LeaseId)
    requires tid in st.tasks && (st.tasks[tid].ExpiryComplete? || st.tasks[tid].ExpiryFree?)
    ensures id in Doomed(Run1(st, tid, now, freshId, order).tasks[tid]) ==> id in Doomed(st.tasks[tid])
  {
  }

  lemma OthersDoomNothing(st: State, tid: nat, now: int, freshId: LeaseId, order: seq<string>)
    requires tid in st.tasks
    requires !st.tasks[tid].ExpiryFind? && !st.tasks[tid].ExpiryComplete? && !st.tasks[tid].ExpiryFree?
    ensures Doomed(Run1(st, tid, now, freshId, order).tasks[tid]) == []
  {
    hide HasActiveLease, Matching, UpdateWorker, CompleteLease;
  }

  lemma StepOfKept(st: State, tid: nat, now: int, freshId: LeaseId, order: seq<string>, id: LeaseId, until: int)
    requires tid in st.tasks && Kept(st, id, until) && now <= until
    ensures var task := Run1(st, tid, now, freshId, order).tasks[tid];
            && NotStopping(task, id)
            && (id in Doomed(task) ==> id in st.leases && st.leases[id].expiresAt < until)
  {
    hide Run1, Doomed, NotStopping;
    StepTask(st, tid, now, freshId, order);
    StepStopsNothingElse(st, tid, now, freshId, order, id);
    if id in Doomed(Run1(st, tid, now, freshId, order).tasks[tid]) {
      StepDooms(st, tid, now, freshId, order, id);
    }
  }

  lemma LeasesOfKept(st: State, task: Task, now: int, freshId: LeaseId, id: LeaseId, until: int)
    requires NotStopping(task, id)
    requires id in Doomed(task) ==> id in st.leases && st.leases[id].expiresAt < until
    requires id in st.leases && until <= st.leases[id].expiresAt ==> st.leases[id].state == Active
    ensures var after := LeasesAfter(st, task, now, freshId);
            && (id in st.leases ==> id in after && after[id].expiresAt == st.leases[id].expiresAt)
            && (id in after && until <= after[id].expiresAt ==> after[id].state == Active)
  {
    if task.ExpiryComplete? && task.todo != [] {
      assert task.todo[0] == id ==> id in Doomed(task);
    }
  }

  lemma EventKeepsLease(st: State, e: Event, id: LeaseId, until: int)
    requires Kept(st, id, until) && LeftToRun(e, id, until)
    ensures Kept(Next(st, e), id, until)
  {
    hide Run1, NotStopping;
    match e
    case Step(tid, now, freshId, order) =>
      if tid in st.tasks {
        StepTask(st, tid, now, freshId, order);
        StepLeases(st, tid, now, freshId, order);
        StepOfKept(st, tid, now, freshId, order, id, until);
        LeasesOfKept(st, st.tasks[tid], now, freshId, id, until);
      }
    case Spawn(tid, task) => SpawnIsHarmless(task, id);
    case _ =>
  }

  lemma SpawnIsHarmless(task: Task, id: LeaseId)
    ensures task.Initial() ==> Doomed(task) == []
    ensures task.Initial() && (task.StopQueued? ==> task.leaseId != id) ==> NotStopping(task, id)
  {
  }

  /** A lease nobody stops is active until a step later than its time: renting pays for all of it. */
  lemma {:induction false} LeasesRunTheirTime(events: seq<Event>, id: LeaseId, until: int)
    requires forall j :: 0 <= j < |events| ==> LeftToRun(events[j], id, until)
    ensures Kept(Run(events), id, until)
    ensures id in Run(events).leases && until <= Run(events).leases[id].expiresAt ==> Run(events).leases[id].state == Active
  {
    if events == [] {
    } else {
      hide Next;
      LeasesRunTheirTime(events[..|events| - 1], id, until);
      EventKeepsLease(Run(events[..|events| - 1]), events[|events| - 1], id, until);
    }
  }
}
