/**
 Reconciliation: the developer check compares the chain's escrow with what the ledger
 implies, the provider check compares recorded, observed and earned payouts.
 */
module Reconcile {
  import opened Common
  import opened Money
  import opened Ledger
  import Jobs
  import Billing
  import BillingTheorems
  import JobsEscrow

  /** A confirmed on-chain debit. */
  datatype DebitRow = DebitRow(dev: nat, units: nat)

  /** The ledger, the chain's escrow per developer, and the confirmed debits. */
  datatype World = World(ledger: seq<Transaction>, escrow: map<nat, nat>, debits: seq<DebitRow>)

  datatype Step =
    | Deposit(dev: nat, units: nat)
    | Withdraw(dev: nat, units: nat)
    | JobHold(job: nat, dev: nat, amount: nat)
    | JobPay(job: nat, dev: nat, provider: nat, cost: nat, bps: nat)
    | JobReturn(job: nat, dev: nat, amount: nat)
    | Debited(dev: nat, units: nat)
    | Reserve(dev: nat, amount: nat)
    | Return(dev: nat, amount: nat)
    | Usage(dev: nat, provider: nat, cost: nat, bps: nat)
    | DataCharge(job: nat, dev: nat, amount: nat)

  function DepositTx(dev: nat, units: nat): Transaction {
    Transfer(ChainDeposit, None, Protocol, None, Developer, Some(dev), FromUnits(units))
  }

  function WithdrawTx(dev: nat, units: nat): Transaction {
    Transfer(ChainWithdraw, None, Developer, Some(dev), Protocol, None, FromUnits(units))
  }

  /** What a step posts. */
  function Postings(s: Step): seq<Transaction> {
    match s
    case Deposit(dev, units) => [DepositTx(dev, units)]
    case Withdraw(dev, units) => [WithdrawTx(dev, units)]
    case JobHold(job, dev, amount) => Jobs.HoldTxs(job, dev, amount)
    case JobPay(job, dev, provider, cost, bps) => Jobs.PayTxs(job, dev, provider, cost, Fee(cost, bps))
    case JobReturn(job, dev, amount) => Jobs.RefundTxs(job, dev, amount)
    case Debited(_, _) => []
    case Reserve(dev, amount) => [Billing.HoldTx(dev, amount)]
    case Return(dev, amount) => [Billing.ReturnTx(dev, amount)]
    case Usage(dev, provider, cost, bps) => [Billing.UsageTx(bps, dev, provider, cost)]
    case DataCharge(job, dev, amount) => Jobs.DataTxs(job, dev, amount)
  }

  /** Fees are at most the whole, and the chain refuses to take more than it holds. */
  predicate Possible(w: World, s: Step) {
    match s
    case JobPay(_, _, _, _, bps) => bps <= BPS
    case Usage(_, _, _, bps) => bps <= BPS
    case Withdraw(dev, units) => units <= Get(w.escrow, dev)
    case Debited(dev, units) => units <= Get(w.escrow, dev)
    case _ => true
  }

  function Next(w: World, s: Step): World {
    if !Possible(w, s) then w
    else
      var ledger := w.ledger + Postings(s);
      match s
      case Deposit(dev, units) => World(ledger, w.escrow[dev := Get(w.escrow, dev) + units], w.debits)
      case Withdraw(dev, units) => World(ledger, w.escrow[dev := Get(w.escrow, dev) - units], w.debits)
      case Debited(dev, units) =>
        World(ledger, w.escrow[dev := Get(w.escrow, dev) - units], w.debits + [DebitRow(dev, units)])
      case _ => w.(ledger := ledger)
  }

  function Run(w: World, steps: seq<Step>): World
    decreases |steps|
  {
    if steps == [] then w else Run(Next(w, steps[0]), steps[1..])
  }

  const EMPTY := World([], map[], [])

  // ---- what the checks read -----------------------------------------------------------------

  function EscrowDebits(ps: seq<Posting>, dev: nat): int {
    if ps == [] then 0
    else
      (if ps[0].account == Escrow && !ps[0].credit && ps[0].ref == Some(dev) then ps[0].amount else 0)
      + EscrowDebits(ps[1..], dev)
  }

  /** Escrow debited by job settlements. */
  function Consumed(l: seq<Transaction>, dev: nat): int {
    if l == [] then 0
    else Consumed(l[..|l| - 1], dev) + if l[|l| - 1].reason == JobSettle then EscrowDebits(l[|l| - 1].postings, dev)
      else 0
  }

  /** Charges that do not pass through a job settlement: inference usage and data movement. */
  function Uncounted(l: seq<Transaction>, dev: nat): int {
    -Posted(l, InferenceUsage, Developer, dev) - Posted(l, DataCost, Developer, dev)
  }

  /** Free plus held. */
  function Claim(l: seq<Transaction>, dev: nat): int { Balance(l, Developer, dev) + Balance(l, Escrow, dev) }

  function DebitedUnits(rows: seq<DebitRow>, dev: nat): nat {
    if rows == [] then 0
    else DebitedUnits(rows[..|rows| - 1], dev) + if rows[|rows| - 1].dev == dev then rows[|rows| - 1].units else 0
  }

  /** The escrow the ledger implies; none when a negative sum makes the conversion raise. */
  function Expected(l: seq<Transaction>, debits: seq<DebitRow>, dev: nat): Option<int> {
    if Claim(l, dev) < 0 || Consumed(l, dev) < 0 then None
    else Some(ToUnits(Claim(l, dev)) + ToUnits(Consumed(l, dev)) - DebitedUnits(debits, dev))
  }

  // ---- the invariant ---------------------------------------------------------------------------

  /** The ledger accounts for the chain: what came in is claimed, consumed or uncounted. */
  ghost predicate DevOk(w: World, d: nat) {
    && Claim(w.ledger, d) + Consumed(w.ledger, d) + Uncounted(w.ledger, d) ==
      FromUnits(Get(w.escrow, d) + DebitedUnits(w.debits, d))
    && Consumed(w.ledger, d) >= 0 && Uncounted(w.ledger, d) >= 0
  }

  /** How one transaction moves the three sums. */
  ghost predicate Shift(t: Transaction, d: nat, claim: int, consumed: int, uncounted: int) {
    && Moved(t.postings, Developer, d) + Moved(t.postings, Escrow, d) == claim
    && (if t.reason == JobSettle then EscrowDebits(t.postings, d) else 0) == consumed
    && (if t.reason == InferenceUsage || t.reason == DataCost then -Moved(t.postings, Developer, d) else 0) == uncounted
  }

  lemma Shifted(l: seq<Transaction>, t: Transaction, d: nat, claim: int, consumed: int, uncounted: int)
    requires Shift(t, d, claim, consumed, uncounted)
    ensures Claim(l + [t], d) == Claim(l, d) + claim
    ensures Consumed(l + [t], d) == Consumed(l, d) + consumed
    ensures Uncounted(l + [t], d) == Uncounted(l, d) + uncounted
  {
    hide Balance, Posted, Moved, EscrowDebits;
    BalanceAppend(l, t, Developer, d);
    BalanceAppend(l, t, Escrow, d);
    PostedAppend(l, t, InferenceUsage, Developer, d);
    PostedAppend(l, t, DataCost, Developer, d);
    assert (l + [t])[..|l + [t]| - 1] == l;
  }

  lemma TransferShift(t: Transaction, reason: Reason, job: Option<nat>, src: Account, srcRef: Option<nat>, dst: Account,
      dstRef: Option<nat>, amount: int, d: nat)
    requires t == Transfer(reason, job, src, srcRef, dst, dstRef, amount) && reason != JobSettle
    requires reason != InferenceUsage
    requires reason == DataCost ==> dst == Protocol && src == Developer
    ensures
      var came := if (dst == Developer || dst == Escrow) && dstRef == Some(d) then amount else 0;
      var went := if (src == Developer || src == Escrow) && srcRef == Some(d) then amount else 0;
      Shift(t, d, came - went, 0, if reason == DataCost then went else 0)
  {
    hide Moved, EscrowDebits;
    TransferMoves(t, reason, job, src, srcRef, dst, dstRef, amount, Developer, d);
    TransferMoves(t, reason, job, src, srcRef, dst, dstRef, amount, Escrow, d);
  }

  lemma UsageShift(dev: nat, provider: nat, cost: nat, bps: nat, d: nat)
    requires bps <= BPS
    ensures
      var spent := if d == dev then cost else 0;
      Shift(Billing.UsageTx(bps, dev, provider, cost), d, -(spent as int), 0, spent)
  {
    hide Moved, EscrowDebits;
    BillingTheorems.UsagePostings(bps, dev, provider, cost, Developer, d);
    BillingTheorems.UsagePostings(bps, dev, provider, cost, Escrow, d);
  }

  lemma PayShift(job: nat, dev: nat, provider: nat, cost: nat, bps: nat, d: nat)
    requires 0 < cost && bps <= BPS
    ensures 0 <= Fee(cost, bps) <= cost
    ensures
      var spent := if d == dev then cost else 0;
      Shift(Jobs.PayTxs(job, dev, provider, cost, Fee(cost, bps))[0], d, -(spent as int), spent, 0)
  {
    hide Moved, Fee;
    FeeBounds(cost, bps);
    var fee := Fee(cost, bps);
    var t := Jobs.PayTxs(job, dev, provider, cost, fee)[0];
    JobsEscrow.PayPostings(job, dev, provider, cost, fee, Developer, d);
    JobsEscrow.PayPostings(job, dev, provider, cost, fee, Escrow, d);
    CreditsOnly(t.postings[1..], d);
  }

  lemma {:induction false} CreditsOnly(ps: seq<Posting>, d: nat)
    requires forall i :: 0 <= i < |ps| ==> ps[i].credit
    ensures EscrowDebits(ps, d) == 0
  {
    if ps != [] { CreditsOnly(ps[1..], d); }
  }
}
