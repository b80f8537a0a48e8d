/**
  Lease settlement: server/settlement.py. The books are account balances, a transaction log and the settlement
  records; one settlement charges the consumer, pays the provider 95% and the platform 5%, or changes nothing.
 */
module Settlement {
  import opened Numbers
  import opened Totals

  const PROVIDER_SHARE: real := 95.0 / 100.0
  const PLATFORM_SHARE: real := 5.0 / 100.0
  const RATE_PER_SECOND: real := 1.0 / 100.0
  const PLATFORM := "platform-treasury"

  type Account = string
  type Balances = map<Account, real>

  datatype Lease = Lease(leaseId: string, consumerId: Account, workerId: Account,
                         elapsedSec: real, pricePerSec: Option<real>, blocksFound: nat)
  {
    function Price(): real {
      elapsedSec * (if pricePerSec.Some? then pricePerSec.value else RATE_PER_SECOND)
    }

    predicate Sensible() {
      elapsedSec >= 0.0 && (pricePerSec.Some? ==> pricePerSec.value >= 0.0)
    }
  }

  datatype Kind = LeaseCharge | ProviderPayout | PlatformFee

  datatype Tx = Tx(account: Account, kind: Kind, amount: real, reference: string)
  {
    /** What the entry says happened to its account. */
    function Signed(): real {
      if kind.LeaseCharge? then -amount else amount
    }
  }

  datatype Record = Record(leaseId: string, consumerId: Account, workerId: Account, durationSec: real,
                           blocksFound: nat, totalCost: real, providerPayout: real, platformFee: real)

  datatype Books = Books(balances: Balances, transactions: seq<Tx>, settlements: seq<Record>)

  /** `Raised`: the money moved, but storing the settlement record failed. */
  datatype Outcome = Settled(record: Record) | Refused | Raised

  // The database calls of one settlement, in order; a run may fail at any one of them.
  const FIRST_UPDATE: nat := 2
  const FIRST_INSERT: nat := 5
  const COMMIT: nat := 8
  const RECORD: nat := 9

  /** An UPDATE of a row that does not exist changes nothing. */
  function Credit(balances: Balances, account: Account, amount: real): Balances {
    if account in balances then balances[account := balances[account] + amount] else balances
  }

  function Cost(balance: real, price: real): real {
    if balance < price then (if balance < 0.0 then 0.0 else balance) else price
  }

  function Entries(lease: Lease, cost: real): seq<Tx> {
    [Tx(lease.consumerId, LeaseCharge, cost, lease.leaseId),
     Tx(lease.workerId, ProviderPayout, cost * PROVIDER_SHARE, lease.leaseId),
     Tx(PLATFORM, PlatformFee, cost * PLATFORM_SHARE, lease.leaseId)]
  }

  function RecordOf(lease: Lease, cost: real): Record {
    Record(lease.leaseId, lease.consumerId, lease.workerId, lease.elapsedSec, lease.blocksFound,
           cost, cost * PROVIDER_SHARE, cost * PLATFORM_SHARE)
  }

  function Moved(balances: Balances, lease: Lease, cost: real): Balances {
    Credit(Credit(Credit(balances, lease.consumerId, -cost), lease.workerId, cost * PROVIDER_SHARE),
           PLATFORM, cost * PLATFORM_SHARE)
  }

  predicate Commits(b: Books, lease: Lease, failsAt: nat) {
    failsAt > COMMIT && lease.consumerId in b.balances
  }

  function Settle(b: Books, lease: Lease, failsAt: nat): Books {
    if !Commits(b, lease, failsAt) then b
    else
      var cost := Cost(b.balances[lease.consumerId], lease.Price());
      Books(Moved(b.balances, lease, cost), b.transactions + Entries(lease, cost),
            if failsAt == RECORD then b.settlements else b.settlements + [RecordOf(lease, cost)])
  }

  function OutcomeOf(b: Books, lease: Lease, failsAt: nat): Outcome {
    if !Commits(b, lease, failsAt) then Refused
    else if failsAt == RECORD then Raised
    else Settled(RecordOf(lease, Cost(b.balances[lease.consumerId], lease.Price())))
  }

  class SettlementEngine {
    var balances: Balances
    var transactions: seq<Tx>
    var settlements: seq<Record>

    function Now(): Books
      reads this
    {
      Books(balances, transactions, settlements)
    }

    constructor (b: Books)
      ensures Now() == b
    {
      balances, transactions, settlements := b.balances, b.transactions, b.settlements;
    }

    method AddToBalance(account: Account, amount: real)
      modifies this`balances
      ensures balances == Credit(old(balances), account, amount)
    {
      if account in balances {
        balances := balances[account := balances[account] + amount];
      }
    }

    method Rollback(savedBalances: Balances, savedTransactions: seq<Tx>)
      modifies this`balances, this`transactions
      ensures balances == savedBalances && transactions == savedTransactions
    {
      balances, transactions := savedBalances, savedTransactions;
    }

    /** The three balance updates, then the three log inserts; false if one of them raised. */
    method Transact(lease: Lease, cost: real, payment: real, fee: real, failsAt: nat) returns (ok: bool)
      modifies this`balances, this`transactions
      ensures ok == !(FIRST_UPDATE <= failsAt < COMMIT)
      ensures ok && payment == cost * PROVIDER_SHARE && fee == cost * PLATFORM_SHARE ==>
                balances == Moved(old(balances), lease, cost)
                && transactions == old(transactions) + Entries(lease, cost)
    {
      if failsAt == FIRST_UPDATE { return false; }
      AddToBalance(lease.consumerId, -cost);
      if failsAt == FIRST_UPDATE + 1 { return false; }
      AddToBalance(lease.workerId, payment);
      if failsAt == FIRST_UPDATE + 2 { return false; }
      AddToBalance(PLATFORM, fee);
      var entries := [Tx(lease.consumerId, LeaseCharge, cost, lease.leaseId),
                      Tx(lease.workerId, ProviderPayout, payment, lease.leaseId),
                      Tx(PLATFORM, PlatformFee, fee, lease.leaseId)];
      ghost var moved := balances;
      for i := 0 to 3
        invariant balances == moved
        invariant transactions == old(transactions) + entries[..i]
        invariant !(FIRST_UPDATE <= failsAt < FIRST_INSERT + i)
      {
        if failsAt == FIRST_INSERT + i { return false; }
        transactions := transactions + [entries[i]];
      }
      assert entries[..3] == entries;
      return true;
    }

    method SettleLease(lease: Lease, failsAt: nat) returns (outcome: Outcome)
      modifies this
      ensures Now() == Settle(old(Now()), lease, failsAt)
      ensures outcome == OutcomeOf(old(Now()), lease, failsAt)
    {
      var cost := lease.Price();
      var payment, fee := cost * PROVIDER_SHARE, cost * PLATFORM_SHARE;
      if failsAt < FIRST_UPDATE || lease.consumerId !in balances { return Refused; }
      if balances[lease.consumerId] < cost {
        cost := if balances[lease.consumerId] < 0.0 then 0.0 else balances[lease.consumerId];
        payment, fee := cost * PROVIDER_SHARE, cost * PLATFORM_SHARE;
      }
      var savedBalances, savedTransactions := balances, transactions;
      var ok := Transact(lease, cost, payment, fee, failsAt);
      if !ok || failsAt == COMMIT {
        Rollback(savedBalances, savedTransactions);
        return Refused;
      }
      if failsAt == RECORD { return Raised; }
      var record := Record(lease.leaseId, lease.consumerId, lease.workerId, lease.elapsedSec, lease.blocksFound,
                           cost, payment, fee);
      settlements := settlements + [record];
      return Settled(record);
    }
  }

  // ------------------------------------------------------------ sums and runs

  lemma CreditMovesTotal(balances: Balances, a: Account, amount: real)
    ensures Total(Credit(balances, a, amount)) == Total(balances) + (if a in balances then amount else 0.0)
  {
    if a in balances {
      TotalUpdates(balances, a, balances[a] + amount);
    }
  }

  datatype Attempt = Attempt(lease: Lease, failsAt: nat)

  function Run(b: Books, attempts: seq<Attempt>): Books {
    if attempts == [] then b
    else
      var last := attempts[|attempts| - 1];
      Settle(Run(b, attempts[..|attempts| - 1]), last.lease, last.failsAt)
  }

  /** What a log says happened to one account. */
  function Net(log: seq<Tx>, a: Account): real {
    if log == [] then 0.0
    else Net(log[..|log| - 1], a) + (if log[|log| - 1].account == a then log[|log| - 1].Signed() else 0.0)
  }

  /** What a log promised to accounts that do not exist. */
  function Unclaimed(log: seq<Tx>, accounts: set<Account>): real {
    if log == [] then 0.0
    else Unclaimed(log[..|log| - 1], accounts)
         + (if log[|log| - 1].account in accounts then 0.0 else log[|log| - 1].Signed())
  }

  lemma NetOfOne(log: seq<Tx>, x: Tx, a: Account)
    ensures Net(log + [x], a) == Net(log, a) + (if x.account == a then x.Signed() else 0.0)
  {
    assert (log + [x])[..|log|] == log;
  }

  lemma NetOfEntries(log: seq<Tx>, e: seq<Tx>, a: Account)
    requires |e| == 3
    ensures Net(log + e, a)
         == Net(log, a) + (if e[0].account == a then e[0].Signed() else 0.0)
          + (if e[1].account == a then e[1].Signed() else 0.0) + (if e[2].account == a then e[2].Signed() else 0.0)
  {
    NetOfOne(log, e[0], a);
    NetOfOne(log + [e[0]], e[1], a);
    NetOfOne(log + [e[0]] + [e[1]], e[2], a);
    assert log + e == log + [e[0]] + [e[1]] + [e[2]];
  }

  lemma UnclaimedOfOne(log: seq<Tx>, x: Tx, accounts: set<Account>)
    ensures Unclaimed(log + [x], accounts) == Unclaimed(log, accounts) + (if x.account in accounts then 0.0 else x.Signed())
  {
    assert (log + [x])[..|log|] == log;
  }

  lemma UnclaimedOfEntries(log: seq<Tx>, e: seq<Tx>, accounts: set<Account>)
    requires |e| == 3
    ensures Unclaimed(log + e, accounts)
         == Unclaimed(log, accounts) + (if e[0].account in accounts then 0.0 else e[0].Signed())
          + (if e[1].account in accounts then 0.0 else e[1].Signed())
          + (if e[2].account in accounts then 0.0 else e[2].Signed())
  {
    UnclaimedOfOne(log, e[0], accounts);
    UnclaimedOfOne(log + [e[0]], e[1], accounts);
    UnclaimedOfOne(log + [e[0]] + [e[1]], e[2], accounts);
    assert log + e == log + [e[0]] + [e[1]] + [e[2]];
  }

  lemma SharesAddUp(cost: real)
    ensures cost * PROVIDER_SHARE + cost * PLATFORM_SHARE == cost
    ensures cost >= 0.0 ==> 0.0 <= cost * PLATFORM_SHARE && 0.0 <= cost * PROVIDER_SHARE
    ensures cost > 0.0 ==> 0.0 < cost * PLATFORM_SHARE && 0.0 < cost * PROVIDER_SHARE
    ensures cost < 0.0 ==> 0.0 > cost * PLATFORM_SHARE && 0.0 > cost * PROVIDER_SHARE
  {
  }

  predicate Reconciled(start: Books, b: Books) {
    && b.balances.Keys == start.balances.Keys
    && |b.transactions| >= |start.transactions| && b.transactions[..|start.transactions|] == start.transactions
    && forall a :: a in start.balances ==>
         b.balances[a] - Net(b.transactions, a) == start.balances[a] - Net(start.transactions, a)
  }

  lemma SettleReconciles(b: Books, lease: Lease, failsAt: nat)
    ensures Reconciled(b, Settle(b, lease, failsAt))
  {
    if Commits(b, lease, failsAt) {
      var cost := Cost(b.balances[lease.consumerId], lease.Price());
      forall a | a in b.balances
        ensures Moved(b.balances, lease, cost)[a] - b.balances[a]
             == Net(b.transactions + Entries(lease, cost), a) - Net(b.transactions, a)
      {
        NetOfEntries(b.transactions, Entries(lease, cost), a);
      }
    }
  }

  /**
    Every balance is where the log says it is: over any run, faults included, an existing account moves by exactly
    the entries logged for it, the log only grows, and no account appears or disappears.
   */
  lemma {:induction false} BalancesFollowTheLog(start: Books, attempts: seq<Attempt>)
    ensures Reconciled(start, Run(start, attempts))
  {
    if attempts == [] {
    } else {
      hide Settle;
      var n := |attempts| - 1;
      BalancesFollowTheLog(start, attempts[..n]);
      SettleReconciles(Run(start, attempts[..n]), attempts[n].lease, attempts[n].failsAt);
    }
  }

  /** The money in the accounts plus the money logged to accounts nobody has. */
  ghost function Accounted(b: Books): real {
    Total(b.balances) + Unclaimed(b.transactions, b.balances.Keys)
  }

  lemma SettleKeepsAccounted(b: Books, lease: Lease, failsAt: nat)
    ensures Accounted(Settle(b, lease, failsAt)) == Accounted(b)
  {
    hide Cost, Unclaimed, Total;
    if Commits(b, lease, failsAt) {
      var cost := Cost(b.balances[lease.consumerId], lease.Price());
      UnclaimedOfEntries(b.transactions, Entries(lease, cost), b.balances.Keys);
      SharesAddUp(cost);
      var b1 := Credit(b.balances, lease.consumerId, -cost);
      var b2 := Credit(b1, lease.workerId, cost * PROVIDER_SHARE);
      CreditMovesTotal(b.balances, lease.consumerId, -cost);
      CreditMovesTotal(b1, lease.workerId, cost * PROVIDER_SHARE);
      CreditMovesTotal(b2, PLATFORM, cost * PLATFORM_SHARE);
      assert Settle(b, lease, failsAt).balances.Keys == b.balances.Keys;
    }
  }

  /** Money leaves the accounts only as payouts and fees logged to accounts that do not exist. */
  lemma {:induction false} MoneyIsAccountedFor(start: Books, attempts: seq<Attempt>)
    ensures Accounted(Run(start, attempts)) == Accounted(start)
  {
    if attempts == [] {
    } else {
      hide Settle, Accounted;
      var n := |attempts| - 1;
      MoneyIsAccountedFor(start, attempts[..n]);
      SettleKeepsAccounted(Run(start, attempts[..n]), attempts[n].lease, attempts[n].failsAt);
    }
  }

  /** A committed settlement conserves the sum of balances exactly when it moves nothing or both payees exist. */
  lemma SettlementConservesExactly(b: Books, lease: Lease, failsAt: nat)
    requires Commits(b, lease, failsAt)
    ensures Total(Settle(b, lease, failsAt).balances) == Total(b.balances)
       <==> Cost(b.balances[lease.consumerId], lease.Price()) == 0.0
            || (lease.workerId in b.balances && PLATFORM in b.balances)
  {
    var cost := Cost(b.balances[lease.consumerId], lease.Price());
    SharesAddUp(cost);
    var b1 := Credit(b.balances, lease.consumerId, -cost);
    var b2 := Credit(b1, lease.workerId, cost * PROVIDER_SHARE);
    CreditMovesTotal(b.balances, lease.consumerId, -cost);
    CreditMovesTotal(b1, lease.workerId, cost * PROVIDER_SHARE);
    CreditMovesTotal(b2, PLATFORM, cost * PLATFORM_SHARE);
  }

  /** With every worker and the platform registered, any run keeps the sum of balances. */
  lemma {:induction false} RunConserves(start: Books, attempts: seq<Attempt>)
    requires PLATFORM in start.balances
    requires forall i :: 0 <= i < |attempts| ==> attempts[i].lease.workerId in start.balances
    ensures Total(Run(start, attempts).balances) == Total(start.balances)
  {
    if attempts == [] {
    } else {
      hide Settle, Reconciled;
      var n := |attempts| - 1;
      var b := Run(start, attempts[..n]);
      RunConserves(start, attempts[..n]);
      assert b.balances.Keys == start.balances.Keys by {
        BalancesFollowTheLog(start, attempts[..n]);
        assert Reconciled(start, b);
        KeysOf(start, b);
      }
      if Commits(b, attempts[n].lease, attempts[n].failsAt) {
        SettlementConservesExactly(b, attempts[n].lease, attempts[n].failsAt);
      } else {
        RefusedChangesNothing(b, attempts[n].lease, attempts[n].failsAt);
      }
    }
  }

  lemma KeysOf(start: Books, b: Books)
    requires Reconciled(start, b)
    ensures b.balances.Keys == start.balances.Keys
  {
  }

  lemma RefusedChangesNothing(b: Books, lease: Lease, failsAt: nat)
    ensures OutcomeOf(b, lease, failsAt) == Refused <==> !Commits(b, lease, failsAt)
    ensures OutcomeOf(b, lease, failsAt) == Refused ==> Settle(b, lease, failsAt) == b
  {
  }

  predicate NoDeeper(before: Balances, after: Balances) {
    before.Keys == after.Keys
    && forall a :: a in before ==> after[a] >= (if before[a] < 0.0 then before[a] else 0.0)
  }

  lemma SensiblePriceIsNotNegative(lease: Lease)
    requires lease.Sensible()
    ensures lease.Price() >= 0.0
  {
  }

  lemma SettleNeverOverdraws(b: Books, lease: Lease, failsAt: nat)
    requires lease.Sensible()
    ensures NoDeeper(b.balances, Settle(b, lease, failsAt).balances)
  {
    if Commits(b, lease, failsAt) {
      var price := lease.Price();
      SensiblePriceIsNotNegative(lease);
      var cost := Cost(b.balances[lease.consumerId], price);
      assert cost >= 0.0;
      SharesAddUp(cost);
    }
  }

  /** Over any run of leases with non-negative time and price, no account goes below zero, or deeper below it. */
  lemma {:induction false} NobodyIsOverdrawn(start: Books, attempts: seq<Attempt>)
    requires forall i :: 0 <= i < |attempts| ==> attempts[i].lease.Sensible()
    ensures NoDeeper(start.balances, Run(start, attempts).balances)
  {
    if attempts == [] {
    } else {
      hide Settle;
      var n := |attempts| - 1;
      NobodyIsOverdrawn(start, attempts[..n]);
      SettleNeverOverdraws(Run(start, attempts[..n]), attempts[n].lease, attempts[n].failsAt);
    }
  }

  /**
    What a recorded settlement cost, in the lease's own terms: its seconds at its rate, or at a cent a second when it
    names none, as far as the consumer's balance goes.
   */
  lemma RecordedCostExactly(b: Books, lease: Lease, failsAt: nat, rate: real)
    requires OutcomeOf(b, lease, failsAt).Settled?
    requires rate == if lease.pricePerSec.Some? then lease.pricePerSec.value else 0.01
    ensures var r := OutcomeOf(b, lease, failsAt).record;
            var balance := b.balances[lease.consumerId];
            && r.totalCost == (if balance >= lease.elapsedSec * rate then lease.elapsedSec * rate
                               else if balance > 0.0 then balance else 0.0)
            && r.providerPayout == r.totalCost * 0.95 && r.platformFee == r.totalCost * 0.05
            && r.leaseId == lease.leaseId && r.consumerId == lease.consumerId && r.workerId == lease.workerId
            && r.durationSec == lease.elapsedSec && r.blocksFound == lease.blocksFound
  {
    var balance, price := b.balances[lease.consumerId], lease.Price();
    assert price == lease.elapsedSec * rate;
  }

  /** Both halves of a recorded settlement, and what its consumer could pay. */
  lemma RecordAddsUp(b: Books, lease: Lease, failsAt: nat)
    requires OutcomeOf(b, lease, failsAt).Settled?
    ensures var r := OutcomeOf(b, lease, failsAt).record;
            && r.providerPayout + r.platformFee == r.totalCost
            && r.providerPayout == 19.0 * r.platformFee
            && r.totalCost <= MaxReal(b.balances[lease.consumerId], 0.0)
            && (r.totalCost == lease.Price() <==> b.balances[lease.consumerId] >= lease.Price() || lease.Price() == 0.0)
  {
    SharesAddUp(Cost(b.balances[lease.consumerId], lease.Price()));
  }
}
