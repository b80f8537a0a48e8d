/** The client table of server/broker.py: who is connected, who subscribed to what, and who is sent a message. */
module MqttBroker {
  import opened Numbers
  import opened TopicMatch

  datatype Session = Session(clientId: string, filters: set<string>)

  /** `running`: connections whose handler has not ended. `table`: the session filed under each client id. */
  datatype State = State(table: map<string, nat>, running: map<nat, Session>, next: nat)

  const EMPTY := State(map[], map[], 0)

  datatype Event =
    | Connect(clientId: string)
    | Subscribe(n: nat, topicFilter: string)
    | Unsubscribe(n: nat, topicFilter: string)
    | End(n: nat)
    | Stop

  function Next(st: State, e: Event): State {
    match e
    case Connect(id) =>
      State(st.table[id := st.next], st.running[st.next := Session(id, {})], st.next + 1)
    case Subscribe(n, f) =>
      if n in st.running then st.(running := st.running[n := st.running[n].(filters := st.running[n].filters + {f})]) else st
    case Unsubscribe(n, f) =>
      if n in st.running then st.(running := st.running[n := st.running[n].(filters := st.running[n].filters - {f})]) else st
    case End(n) =>
      if n in st.running then State(st.table - {st.running[n].clientId}, st.running - {n}, st.next) else st
    case Stop => st.(table := map[])
  }

  function Run(events: seq<Event>): State {
    if events == [] then EMPTY else Next(Run(events[..|events| - 1]), events[|events| - 1])
  }

  predicate Valid(st: State) {
    && (forall n :: n in st.running ==> n < st.next)
    && (forall id :: id in st.table ==> st.table[id] in st.running && st.running[st.table[id]].clientId == id)
  }

  /** Every entry of the table is a running session of that client: nothing is sent to an ended one. */
  lemma {:induction false} TableHoldsRunningSessions(events: seq<Event>)
    ensures Valid(Run(events))
  {
    if events == [] {
    } else {
      TableHoldsRunningSessions(events[..|events| - 1]);
    }
  }

  // ----------------------------------------------------------- who can be reached

  /** An event that takes the client's entry away from whoever holds it. */
  predicate Displaces(st: State, e: Event, id: string) {
    match e
    case Connect(other) => other == id
    case End(n) => n in st.running && st.running[n].clientId == id
    case Stop => true
    case _ => false
  }

  predicate Undisturbed(events: seq<Event>, from: nat, id: string) {
    forall j :: from < j < |events| ==> !Displaces(Run(events[..j]), events[j], id)
  }

  predicate Holds(st: State, id: string, n: nat) {
    id in st.table && st.table[id] == n
  }

  lemma EntryStep(st: State, e: Event, id: string, n: nat)
    requires Valid(st) && n < st.next
    ensures Holds(Next(st, e), id, n) <==> Holds(st, id, n) && !Displaces(st, e, id)
    ensures n < Next(st, e).next
  {
  }

  lemma UndisturbedStep(events: seq<Event>, i: nat, m: nat, id: string)
    requires i < m == |events| - 1
    ensures Undisturbed(events, i, id)
       <==> Undisturbed(events[..m], i, id) && !Displaces(Run(events[..m]), events[m], id)
  {
    hide Run, Displaces;
    assert forall j :: i < j < m ==> events[..m][..j] == events[..j];
  }

  lemma JustConnected(events: seq<Event>, i: nat, id: string)
    requires i == |events| - 1 && events[i] == Connect(id)
    ensures Holds(Run(events), id, Run(events[..i]).next) && Undisturbed(events, i, id)
    ensures Run(events[..i]).next < Run(events).next
  {
  }

  /**
    The session opened by a connect is the one its client is reached by exactly until the client connects again,
    the broker stops, or any session of that client ends.
   */
  lemma {:induction false} ReachedUntilDisplaced(events: seq<Event>, i: nat, id: string)
    requires i < |events| && events[i] == Connect(id)
    ensures Holds(Run(events), id, Run(events[..i]).next) <==> Undisturbed(events, i, id)
    ensures Run(events[..i]).next < Run(events).next
    decreases |events|
  {
    hide Holds, Displaces, Valid, Undisturbed, Next;
    var m := |events| - 1;
    var before := events[..m];
    if i == m {
      JustConnected(events, i, id);
    } else {
      assert before[..i] == events[..i];
      ReachedUntilDisplaced(before, i, id);
      TableHoldsRunningSessions(before);
      EntryStep(Run(before), events[m], id, Run(events[..i]).next);
      UndisturbedStep(events, i, m, id);
    }
  }

  /** A client that reconnects before its old connection has ended loses its entry when that one ends. */
  lemma ReconnectIsForgotten(id: string)
    ensures var st := Run([Connect(id), Connect(id), End(0)]);
            1 in st.running && st.running[1].clientId == id && id !in st.table
  {
    var all := [Connect(id), Connect(id), End(0)];
    assert all[..2] == [Connect(id), Connect(id)] && all[..2][..1] == [Connect(id)] && all[..2][..1][..0] == [];
    assert Run([Connect(id)]) == Next(EMPTY, Connect(id));
    assert Run(all[..2]) == Next(Run([Connect(id)]), Connect(id));
  }

  // -------------------------------------------------------------------- filters

  /** Session `n` asked for the filter at `j`, while it ran, and has not given it up since. */
  predicate AskedAt(events: seq<Event>, j: nat, n: nat, f: string)
    requires j < |events|
  {
    && events[j] == Subscribe(n, f) && n in Run(events[..j]).running
    && forall k :: j < k < |events| ==> events[k] != Unsubscribe(n, f)
  }

  lemma FilterStep(st: State, e: Event, n: nat, f: string)
    requires Valid(st) && n in Next(st, e).running
    ensures f in Next(st, e).running[n].filters <==>
              || (e == Subscribe(n, f) && n in st.running)
              || (n in st.running && f in st.running[n].filters && e != Unsubscribe(n, f))
    ensures n !in st.running ==> n == st.next
  {
  }

  lemma {:induction false} UnusedNumbersAskedNothing(events: seq<Event>, n: nat, f: string)
    requires Run(events).next <= n
    ensures forall j :: 0 <= j < |events| ==> !AskedAt(events, j, n, f)
  {
    forall j | 0 <= j < |events| ensures !AskedAt(events, j, n, f) {
      NextGrows(events, j);
      TableHoldsRunningSessions(events[..j]);
    }
  }

  lemma {:induction false} NextGrows(events: seq<Event>, j: nat)
    requires j <= |events|
    ensures Run(events[..j]).next <= Run(events).next
  {
    if j == |events| {
      assert events[..j] == events;
    } else {
      var m := |events| - 1;
      NextGrows(events[..m], j);
      assert events[..m][..j] == events[..j];
    }
  }

  lemma AskedStep(events: seq<Event>, m: nat, n: nat, f: string)
    requires m == |events| - 1
    ensures (exists j :: 0 <= j < |events| && AskedAt(events, j, n, f)) <==>
              || (events[m] == Subscribe(n, f) && n in Run(events[..m]).running)
              || (events[m] != Unsubscribe(n, f) && exists j :: 0 <= j < m && AskedAt(events[..m], j, n, f))
  {
    hide Run;
    var before := events[..m];
    assert forall j :: 0 <= j < m ==> before[..j] == events[..j] && before[j] == events[j];
    if j :| 0 <= j < m && AskedAt(before, j, n, f) {
      if events[m] != Unsubscribe(n, f) {
        assert AskedAt(events, j, n, f);
      }
    }
    if events[m] == Subscribe(n, f) && n in Run(before).running {
      assert AskedAt(events, m, n, f);
    }
    if j :| 0 <= j < |events| && AskedAt(events, j, n, f) {
      if j < m {
        assert AskedAt(before, j, n, f);
      }
    }
  }

  /** A running session has exactly the filters it subscribed to and has not unsubscribed from since. */
  lemma {:induction false} FiltersAreThoseAsked(events: seq<Event>, n: nat, f: string)
    requires n in Run(events).running
    ensures f in Run(events).running[n].filters <==> exists j :: 0 <= j < |events| && AskedAt(events, j, n, f)
  {
    if events == [] {
    } else {
      var m := |events| - 1;
      TableHoldsRunningSessions(events[..m]);
      FilterStep(Run(events[..m]), events[m], n, f);
      AskedStep(events, m, n, f);
      if n in Run(events[..m]).running {
        FiltersAreThoseAsked(events[..m], n, f);
      } else {
        UnusedNumbersAskedNothing(events[..m], n, f);
      }
    }
  }

  // -------------------------------------------------------------------- routing

  predicate Wants(s: Session, topic: string) {
    exists f :: f in s.filters && Matches(Split(f), Split(topic))
  }

  /** The client is on file, is not the sender, and one of its filters matches. */
  predicate Receives(st: State, sender: Option<string>, topic: string, id: string) {
    && id in st.table && st.table[id] in st.running && sender != Some(id)
    && Wants(st.running[st.table[id]], topic)
  }

  class Broker {
    var table: map<string, nat>
    var running: map<nat, Session>
    var next: nat

    function Now(): State
      reads this
    {
      State(table, running, next)
    }

    constructor ()
      ensures Now() == EMPTY
    {
      table, running, next := map[], map[], 0;
    }

    method Attach(clientId: string) returns (n: nat)
      requires Valid(Now())
      modifies this
      ensures Valid(Now()) && Now() == Next(old(Now()), Connect(clientId)) && n == old(next)
    {
      n := next;
      table := table - {clientId};
      table := table[clientId := n];
      running := running[n := Session(clientId, {})];
      next := n + 1;
    }

    method AddFilter(n: nat, topicFilter: string)
      requires Valid(Now()) && n in running
      modifies this`running
      ensures Valid(Now()) && Now() == Next(old(Now()), Subscribe(n, topicFilter))
    {
      running := running[n := Session(running[n].clientId, running[n].filters + {topicFilter})];
    }

    method RemoveFilter(n: nat, topicFilter: string)
      requires Valid(Now()) && n in running
      modifies this`running
      ensures Valid(Now()) && Now() == Next(old(Now()), Unsubscribe(n, topicFilter))
    {
      running := running[n := Session(running[n].clientId, running[n].filters - {topicFilter})];
    }

    method Detach(n: nat)
      requires Valid(Now()) && n in running
      modifies this
      ensures Valid(Now()) && Now() == Next(old(Now()), End(n))
    {
      table := table - {running[n].clientId};
      running := running - {n};
    }

    /** Try the session's filters one by one until one matches. */
    method MatchesAny(filters: set<string>, topic: string) returns (found: bool)
      ensures found <==> Wants(Session("", filters), topic)
    {
      var todo := filters;
      while todo != {}
        invariant todo <= filters
        invariant forall f :: f in filters && f !in todo ==> !Matches(Split(f), Split(topic))
        decreases |todo|
      {
        var f :| f in todo;
        var hit := MqttTopicMatches(f, topic);
        if hit { return true; }
        todo := todo - {f};
      }
      return false;
    }

    /** Send a message on: every client that should get it gets it once, and nobody else does. */
    method Route(sender: Option<string>, topic: string) returns (sent: seq<string>)
      requires Valid(Now())
      ensures forall id :: multiset(sent)[id] == if Receives(Now(), sender, topic, id) then 1 else 0
      ensures forall id :: id in sent <==>
                && id in table && sender != Some(id)
                && exists f :: f in running[table[id]].filters && Matches(Split(f), Split(topic))
    {
      sent := [];
      var todo := table.Keys;
      while todo != {}
        invariant todo <= table.Keys
        invariant forall id :: multiset(sent)[id] == if id !in todo && Receives(Now(), sender, topic, id) then 1 else 0
        decreases |todo|
      {
        var id :| id in todo;
        todo := todo - {id};
        if sender != Some(id) {
          var hit := MatchesAny(running[table[id]].filters, topic);
          if hit {
            sent := sent + [id];
          }
        }
      }
      forall id
        ensures id in sent <==>
          id in table && sender != Some(id)
          && exists f :: f in running[table[id]].filters && Matches(Split(f), Split(topic))
      {
        assert id in sent <==> multiset(sent)[id] > 0;
        assert id in table ==> table[id] in running;
      }
    }
  }
}
