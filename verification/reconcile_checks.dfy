/** How far the developer check is off in every reachable state, and the checks themselves. */
module ReconcileChecks {
  import opened Common
  import opened Money
  import opened Ledger
  import opened Reconcile
  import Jobs
  import Billing
  import Settlement
  import SettlementSafety
  import SettlementTheorems

  /** What a step does to one developer's sums and to the chain. */
  lemma StepShift(w: World, s: Step, d: nat)
    requires Possible(w, s)
    ensures
      var w' := Next(w, s);
      var inflow := (if s.Deposit? && s.dev == d then FromUnits(s.units) as int else 0)
        - (if s.Withdraw? && s.dev == d then FromUnits(s.units) as int else 0);
      var spent := if s.JobPay? && s.dev == d then s.cost else 0;
      var other := if s.Usage? && s.dev == d then s.cost else if s.DataCharge? && s.dev == d then s.amount else 0;
      && Claim(w'.ledger, d) == Claim(w.ledger, d) + inflow - spent - other
      && Consumed(w'.ledger, d) == Consumed(w.ledger, d) + spent
      && Uncounted(w'.ledger, d) == Uncounted(w.ledger, d) + other
  {
    hide Claim, Consumed, Uncounted, Shift, Fee, Billing.UsageTx;
    var l := w.ledger;
    assert l + [] == l;
    match s {
      case Deposit(dev, units) =>
        TransferShift(DepositTx(dev, units), ChainDeposit, None, Protocol, None, Developer, Some(dev), FromUnits(units),
          d);
        Shifted(l, DepositTx(dev, units), d, if dev == d then FromUnits(units) else 0, 0, 0);
      case Withdraw(dev, units) =>
        TransferShift(WithdrawTx(dev, units), ChainWithdraw, None, Developer, Some(dev), Protocol, None,
          FromUnits(units), d);
        Shifted(l, WithdrawTx(dev, units), d, if dev == d then 0 - FromUnits(units) else 0, 0, 0);
      case JobHold(job, dev, amount) =>
        if amount > 0 {
          var t := Jobs.HoldTxs(job, dev, amount)[0];
          TransferShift(t, EscrowHold, Some(job), Developer, Some(dev), Escrow, Some(dev), amount, d);
          Shifted(l, t, d, 0, 0, 0);
        }
      case JobPay(job, dev, provider, cost, bps) =>
        if cost > 0 {
          PayShift(job, dev, provider, cost, bps, d);
          Shifted(l, Jobs.PayTxs(job, dev, provider, cost, Fee(cost, bps))[0], d, if d == dev then 0 - cost else 0,
            if d == dev then cost else 0, 0);
        }
      case JobReturn(job, dev, amount) =>
        if amount > 0 {
          var t := Jobs.RefundTxs(job, dev, amount)[0];
          TransferShift(t, JobRefund, Some(job), Escrow, Some(dev), Developer, Some(dev), amount, d);
          Shifted(l, t, d, 0, 0, 0);
        }
      case Debited(_, _) =>
      case Reserve(dev, amount) =>
        TransferShift(Billing.HoldTx(dev, amount), InferenceHold, None, Developer, Some(dev), Escrow, Some(dev), amount,
          d);
        Shifted(l, Billing.HoldTx(dev, amount), d, 0, 0, 0);
      case Return(dev, amount) =>
        TransferShift(Billing.ReturnTx(dev, amount), InferenceRelease, None, Escrow, Some(dev), Developer, Some(dev),
          amount, d);
        Shifted(l, Billing.ReturnTx(dev, amount), d, 0, 0, 0);
      case Usage(dev, provider, cost, bps) =>
        UsageShift(dev, provider, cost, bps, d);
        Shifted(l, Billing.UsageTx(bps, dev, provider, cost), d, if d == dev then 0 - cost else 0, 0,
          if d == dev then cost else 0);
      case DataCharge(job, dev, amount) =>
        if amount > 0 {
          var t := Jobs.DataTxs(job, dev, amount)[0];
          TransferShift(t, DataCost, Some(job), Developer, Some(dev), Protocol, None, amount, d);
          Shifted(l, t, d, if d == dev then 0 - amount else 0, 0, if d == dev then amount else 0);
        }
    }
  }

  lemma StepDev(w: World, s: Step, d: nat)
    requires DevOk(w, d)
    ensures DevOk(Next(w, s), d)
  {
    hide Claim, Consumed, Uncounted, Postings;
    if Possible(w, s) {
      StepShift(w, s, d);
      if s.Debited? {
        assert Next(w, s).debits[..|w.debits|] == w.debits;
      }
    }
  }

  lemma {:induction false} RunDev(w: World, steps: seq<Step>, d: nat)
    requires DevOk(w, d)
    ensures DevOk(Run(w, steps), d)
    decreases |steps|
  {
    hide Next, DevOk;
    if steps != [] {
      StepDev(w, steps[0], d);
      RunDev(Next(w, steps[0]), steps[1..], d);
    }
  }

  /** Ticks rounded up to whole units. */
  function UnitsUp(ticks: nat): nat { (ticks + TICKS_PER_UNIT - 1) / TICKS_PER_UNIT }

  lemma Rounding(n: nat, claim: nat, consumed: nat, other: nat)
    requires claim + consumed + other == FromUnits(n)
    ensures n - ToUnits(claim) - ToUnits(consumed) == UnitsUp(consumed + other) - ToUnits(consumed)
    ensures other == 0 ==>
      UnitsUp(consumed + other) - ToUnits(consumed) == if consumed % TICKS_PER_UNIT == 0 then 0 else 1
    ensures UnitsUp(consumed + other) == ToUnits(consumed) <==> other == 0 && consumed % TICKS_PER_UNIT == 0
  {}

  /**
   In every reachable state in which the developer is not overdrawn, the developer check is off by exactly the
   units it cannot see: charges outside job settlement, plus one when consumption leaves a
   fraction of a unit. Without such charges it is off by nothing or by one unit, never more,
   and it is clean exactly when there are none and consumption is a whole number of units.
   */
  lemma DeveloperDelta(steps: seq<Step>, d: nat)
    ensures
      var w := Run(EMPTY, steps);
      var consumed, other := Consumed(w.ledger, d), Uncounted(w.ledger, d);
      var e := Expected(w.ledger, w.debits, d);
      && consumed >= 0 && other >= 0
      && (e.None? <==> Claim(w.ledger, d) < 0)
      && (e.Some? ==>
        && Get(w.escrow, d) - e.value == UnitsUp(consumed + other) - ToUnits(consumed)
        && (other == 0 ==> Get(w.escrow, d) - e.value == if consumed % TICKS_PER_UNIT == 0 then 0 else 1)
        && (Get(w.escrow, d) == e.value <==> other == 0 && consumed % TICKS_PER_UNIT == 0))
  {
    hide Run, Consumed, Uncounted, Claim;
    assert DevOk(EMPTY, d) by { Nothing(d); }
    RunDev(EMPTY, steps, d);
    var w := Run(EMPTY, steps);
    if Claim(w.ledger, d) >= 0 {
      Rounding(Get(w.escrow, d) + DebitedUnits(w.debits, d), Claim(w.ledger, d), Consumed(w.ledger, d),
        Uncounted(w.ledger, d));
    }
  }

  lemma Nothing(d: nat)
    ensures Claim([], d) == 0 && Consumed([], d) == 0 && Uncounted([], d) == 0
  {}

  // ---- the checks -----------------------------------------------------------------------------

  datatype Kind = DeveloperEscrow | ProviderSettled | ProviderOverpay

  datatype Divergence = Divergence(kind: Kind, subject: nat, expected: int, actual: int)

  predicate Differs(w: World, d: nat) {
    var e := Expected(w.ledger, w.debits, d);
    e.Some? && Get(w.escrow, d) != e.value
  }

  function DivergenceOf(w: World, d: nat): Divergence
    requires Differs(w, d)
  {
    Divergence(DeveloperEscrow, d, Expected(w.ledger, w.debits, d).value, Get(w.escrow, d))
  }

  /** What a developer check returns: nothing at all when a conversion raises, else exactly the differences. */
  ghost predicate Reports(w: World, devs: seq<nat>, out: Option<seq<Divergence>>) {
    && (out.None? <==> exists d :: d in devs && Expected(w.ledger, w.debits, d).None?)
    && (out.Some? ==> forall v :: v in out.value <==> exists d :: d in devs && Differs(w, d) && v == DivergenceOf(w, d))
  }

  /** Sum the confirmed debits by developer. */
  method DebitsByDeveloper(rows: seq<DebitRow>) returns (out: map<nat, nat>)
    ensures forall d: nat :: Get(out, d) == DebitedUnits(rows, d)
  {
    out := map[];
    for i := 0 to |rows|
      invariant forall d: nat :: Get(out, d) == DebitedUnits(rows[..i], d)
    {
      assert rows[..i + 1][..i] == rows[..i];
      out := out[rows[i].dev := Get(out, rows[i].dev) + rows[i].units];
    }
    assert rows[..|rows|] == rows;
  }

  method CheckDevelopers(w: World, devs: seq<nat>) returns (out: Option<seq<Divergence>>)
    ensures Reports(w, devs, out)
  {
    hide Claim, Consumed;
    var debited := DebitsByDeveloper(w.debits);
    var found := [];
    for i := 0 to |devs|
      invariant forall k :: 0 <= k < i ==> Expected(w.ledger, w.debits, devs[k]).Some?
      invariant forall v :: v in found <==>
        exists k :: 0 <= k < i && Differs(w, devs[k]) && v == DivergenceOf(w, devs[k])
    {
      var d := devs[i];
      var claim, consumed := Claim(w.ledger, d), Consumed(w.ledger, d);
      if claim < 0 || consumed < 0 {
        assert d in devs && Expected(w.ledger, w.debits, d).None?;
        return None;
      }
      var expected := ToUnits(claim) + ToUnits(consumed) - Get(debited, d);
      var actual := Get(w.escrow, d);
      if actual != expected {
        found := found + [Divergence(DeveloperEscrow, d, expected, actual)];
      }
    }
    out := Some(found);
  }

  /** A developer the check cannot square: charges it does not count, or a fraction of a unit consumed. */
  predicate Unsquared(w: World, d: nat) {
    Uncounted(w.ledger, d) > 0 || Consumed(w.ledger, d) % TICKS_PER_UNIT != 0
  }

  /**
   What the developer check says in any reachable state: it raises if and only if a listed
   developer is overdrawn, and otherwise names exactly the listed developers it cannot square,
   short by exactly the units it cannot see.
   */
  lemma ReportsExactly(steps: seq<Step>, devs: seq<nat>, out: Option<seq<Divergence>>)
    requires Reports(Run(EMPTY, steps), devs, out)
    ensures
      var w := Run(EMPTY, steps);
      && (out.None? <==> exists d :: d in devs && Claim(w.ledger, d) < 0)
      && (out.Some? ==>
        && (forall d :: d in devs && Unsquared(w, d) <==> exists v :: v in out.value && v.subject == d)
        && (forall v :: v in out.value ==>
          && Consumed(w.ledger, v.subject) >= 0 && Uncounted(w.ledger, v.subject) >= 0
          && v.actual - v.expected ==
            UnitsUp(Consumed(w.ledger, v.subject) + Uncounted(w.ledger, v.subject))
              - ToUnits(Consumed(w.ledger, v.subject))))
  {
    hide Run, Claim, Consumed, Uncounted, Expected;
    var w := Run(EMPTY, steps);
    forall d: nat
      ensures Expected(w.ledger, w.debits, d).None? <==> Claim(w.ledger, d) < 0
      ensures Expected(w.ledger, w.debits, d).Some? ==> (Differs(w, d) <==> Unsquared(w, d))
    {
      DeveloperDelta(steps, d);
    }
    if out.Some? {
      forall d | d in devs && Unsquared(w, d) ensures exists v :: v in out.value && v.subject == d {
        assert Differs(w, d) && DivergenceOf(w, d) in out.value;
      }
      forall v | v in out.value
        ensures v.subject in devs && Unsquared(w, v.subject) && Consumed(w.ledger, v.subject) >= 0
        ensures Uncounted(w.ledger, v.subject) >= 0
        ensures v.actual - v.expected ==
          UnitsUp(Consumed(w.ledger, v.subject) + Uncounted(w.ledger, v.subject))
            - ToUnits(Consumed(w.ledger, v.subject))
      {
        DeveloperDelta(steps, v.subject);
      }
    }
  }

  /** Ten units in, a unit and a half paid for a job: the check is off by one. */
  lemma HalfUnitOff() returns (steps: seq<Step>)
    ensures
      var w := Run(EMPTY, steps);
      Expected(w.ledger, w.debits, 0).Some? && Get(w.escrow, 0) - Expected(w.ledger, w.debits, 0).value == 1
  {
    hide Claim, Consumed, Uncounted, Postings;
    var a, b, c := Deposit(0, 10), JobHold(0, 0, 150), JobPay(0, 0, 1, 150, 0);
    steps := [a, b, c];
    var w1 := Next(EMPTY, a);
    var w2 := Next(w1, b);
    var w3 := Next(w2, c);
    assert [a, b, c][1..] == [b, c] && [b, c][1..] == [c] && [c][1..] == [];
    assert Run(w3, []) == w3 && Run(w2, [c]) == w3 && Run(w1, [b, c]) == w3;
    Nothing(0);
    StepShift(EMPTY, a, 0);
    StepShift(w1, b, 0);
    StepShift(w2, c, 0);
    DeveloperDelta(steps, 0);
  }

  /** What the provider check reports about one provider. */
  function ProviderDivergence(p: nat, rec: nat, obs: nat, earned: nat): seq<Divergence> {
    (if rec != obs then [Divergence(ProviderSettled, p, rec, obs)] else [])
    + (if rec > earned then [Divergence(ProviderOverpay, p, earned, rec)] else [])
  }

  method CheckProviders(provs: seq<nat>, recorded: map<nat, nat>, observed: map<nat, nat>, earned: map<nat, nat>)
    returns (out: seq<Divergence>)
    ensures forall d :: d in out <==>
      exists p :: p in provs && d in ProviderDivergence(p, Get(recorded, p), Get(observed, p), Get(earned, p))
    ensures forall p: nat ::
      var rec, obs, most := Get(recorded, p), Get(observed, p), Get(earned, p);
      && (Divergence(ProviderSettled, p, rec, obs) in out <==> p in provs && rec != obs)
      && (Divergence(ProviderOverpay, p, most, rec) in out <==> p in provs && rec > most)
  {
    out := [];
    for i := 0 to |provs|
      invariant forall d :: d in out <==>
        exists k :: 0 <= k < i &&
          d in ProviderDivergence(provs[k], Get(recorded, provs[k]), Get(observed, provs[k]), Get(earned, provs[k]))
    {
      var p := provs[i];
      var rec, obs := Get(recorded, p), Get(observed, p);
      var before := out;
      if rec != obs {
        out := out + [Divergence(ProviderSettled, p, rec, obs)];
      }
      if rec > Get(earned, p) {
        out := out + [Divergence(ProviderOverpay, p, Get(earned, p), rec)];
      }
      assert out == before + ProviderDivergence(p, rec, obs, Get(earned, p));
    }
  }

  /**
   The over-pay report is unreachable: whatever the settlement engine and the chain did, no
   provider's recorded settlements exceed its earnings; and with nothing in flight and the
   chain's payouts observed, the provider check reports nothing at all.
   */
  lemma NeverOverpaid(cfg: Settlement.Config, w0: Settlement.World, steps: seq<Settlement.Step>, p: nat, obs: nat)
    requires Settlement.Initial(cfg, w0) && SettlementSafety.Distinct(cfg.devWallets)
    requires SettlementSafety.Distinct(cfg.providerWallets)
    requires p < |cfg.providerWallets| && cfg.providerWallets[p].Some?
    ensures
      var w := Settlement.Run(cfg, w0, steps);
      && p < |w.earned|
      && var report := ProviderDivergence(p, SettlementTheorems.RecordedUnits(w.rows, p), obs, ToUnits(w.earned[p]));
      && (forall d :: d in report ==> d.kind != ProviderOverpay)
      && (!Settlement.AnyInFlight(w.rows) && obs == Get(w.chain.earnings, cfg.providerWallets[p].value) ==>
        report == [])
  {
    hide Settlement.Run, SettlementTheorems.RecordedUnits, Settlement.Reserved;
    SettlementTheorems.NoDoublePay(cfg, w0, steps, p);
    if !Settlement.AnyInFlight(Settlement.Run(cfg, w0, steps).rows) {
      SettlementTheorems.SettledBooksAgree(cfg, w0, steps, p);
    }
  }
}
