/** When the batch and the debit phase record something, and exactly what. */
module SettlementPhases {
  import opened Common
  import opened Money
  import opened ChainModel
  import opened Settlement
  import opened SettlementSafety
  import opened SettlementTheorems
  import opened SettlementDebits
  import opened SettlementLiveness

  /** Whole units a provider with a wallet has earned beyond its live reservations. */
  function Owed(cfg: Config, rows: seq<Row>, earned: seq<nat>, p: nat): nat {
    if p < |earned| && WalletOf(cfg.providerWallets, p).Some? && ToUnits(earned[p]) > Reserved(rows, p)
    then ToUnits(earned[p]) - Reserved(rows, p) else 0
  }

  /** What the first `n` providers are owed together. */
  function OwedTo(cfg: Config, rows: seq<Row>, earned: seq<nat>, n: nat): nat {
    if n == 0 then 0 else OwedTo(cfg, rows, earned, n - 1) + Owed(cfg, rows, earned, n - 1)
  }

  function TotalOwed(cfg: Config, rows: seq<Row>, earned: seq<nat>): nat { OwedTo(cfg, rows, earned, |earned|) }

  lemma {:induction false} TotalAppend(legs: seq<Leg>, leg: Leg)
    ensures TotalUnits(legs + [leg]) == TotalUnits(legs) + leg.units
  {
    if legs == [] {
      assert legs + [leg] == [leg] && [leg][1..] == [];
    } else {
      assert (legs + [leg])[0] == legs[0] && (legs + [leg])[1..] == legs[1..] + [leg];
      TotalAppend(legs[1..], leg);
    }
  }

  lemma NoUnits()
    ensures TotalUnits([]) == 0
  {}

  lemma {:induction false} PlanTotal(cfg: Config, earned: seq<nat>, rows: seq<Row>, n: nat)
    requires n <= |earned|
    ensures TotalUnits(PlanLegs(cfg, earned, rows, n)) == OwedTo(cfg, rows, earned, n)
  {
    hide Reserved, TotalUnits;
    if n == 0 {
      assert TotalUnits([]) == 0 by { NoUnits(); }
    } else {
      var p := n - 1;
      PlanTotal(cfg, earned, rows, p);
      var owed := ToUnits(earned[p]) - Reserved(rows, p);
      var rest := PlanLegs(cfg, earned, rows, p);
      if owed > 0 && WalletOf(cfg.providerWallets, p).Some? {
        TotalAppend(rest, Leg(p, owed));
      } else {
        assert rest + [] == rest;
      }
    }
  }

  /** A batch is due: something is owed, and it is asked for, late, or large enough. */
  predicate BatchDue(cfg: Config, rows: seq<Row>, earned: seq<nat>, force: bool, elapsed: bool) {
    var total := TotalOwed(cfg, rows, earned);
    total > 0 && (force || elapsed || total >= cfg.threshold)
  }

  /** What a recorded batch adds: it reserves and pays exactly what is owed. */
  ghost predicate BatchAdded(cfg: Config, rows: seq<Row>, earned: seq<nat>, rows': seq<Row>) {
    && |rows| < |rows'| && rows'[..|rows|] == rows
    && (forall p: nat :: Reserved(rows', p) == Reserved(rows, p) + Owed(cfg, rows, earned, p))
    && (var r := rows'[|rows'| - 1];
      && r.status == Pending && r.payload.SettleBatch?
      && Total(r.payload.payees) == TotalOwed(cfg, rows, earned)
      && forall p :: 0 <= p < |cfg.providerWallets| && cfg.providerWallets[p].Some? ==>
        Pay(r.payload.payees, cfg.providerWallets[p].value) == Owed(cfg, rows, earned, p))
  }

  lemma PlanIs(cfg: Config, rows: seq<Row>, earned: seq<nat>)
    ensures
      var legs := PlanLegs(cfg, earned, rows, |earned|);
      && LegsOk(cfg, legs) && TotalUnits(legs) == TotalOwed(cfg, rows, earned)
      && forall p: nat :: LegUnits(legs, p) == Owed(cfg, rows, earned, p)
  {
    PlanTotal(cfg, earned, rows, |earned|);
    forall p: nat ensures LegUnits(PlanLegs(cfg, earned, rows, |earned|), p) == Owed(cfg, rows, earned, p) {
      PlanLegsIs(cfg, earned, rows, |earned|, p);
    }
    PlanLegsIs(cfg, earned, rows, |earned|, 0);
  }

  lemma BatchAdds(cfg: Config, rows: seq<Row>, earned: seq<nat>, base: nat, pool: nat)
    requires Distinct(cfg.providerWallets)
    ensures BatchAdded(cfg, rows, earned, rows + BatchRows(cfg, PlanLegs(cfg, earned, rows, |earned|), base, pool))
  {
    hide Owed, LegsOk, Reserved, PlanLegs, Distinct;
    var legs := PlanLegs(cfg, earned, rows, |earned|);
    var added := BatchRows(cfg, legs, base, pool);
    PlanIs(cfg, rows, earned);
    TotalIs(cfg, legs);
    forall p: nat ensures Reserved(rows + added, p) == Reserved(rows, p) + Owed(cfg, rows, earned, p) {
      BatchReserved(rows, added, legs, p);
    }
    forall p | 0 <= p < |cfg.providerWallets| && cfg.providerWallets[p].Some?
      ensures Pay(PayeesOf(cfg, legs), cfg.providerWallets[p].value) == Owed(cfg, rows, earned, p)
    {
      PayIsLegs(cfg, legs, p);
    }
  }

  /**
   From an idle engine the batch phase records if and only if nothing is in flight and a batch
   is due; it then reserves for every provider, and pays to its wallet, exactly what it is owed.
   */
  lemma BatchPhaseIff(cfg: Config, w: World, force: bool, elapsed: bool)
    requires w.session.Closed? && Distinct(cfg.providerWallets)
    ensures
      var w' := Run(cfg, w, BatchSteps(force, elapsed));
      if !AnyInFlight(w.rows) && BatchDue(cfg, w.rows, w.earned, force, elapsed)
      then BatchAdded(cfg, w.rows, w.earned, w'.rows) && w' == w.(rows := w'.rows)
      else w' == w
  {
    hide AnyInFlight, BatchAdded, TotalOwed, PlanLegs, TotalUnits, BatchRows, BaseNonce, Distinct, Run;
    RunBatch(cfg, w, force, elapsed);
    PlanIs(cfg, w.rows, w.earned);
    BatchAdds(cfg, w.rows, w.earned, BaseNonce(w.chain, w.rows), w.chain.pool);
  }

  // ---- debits ----------------------------------------------------------------------------------

  /** After a recorded debit phase every developer with a wallet is debited for all it consumed. */
  ghost predicate DebitsAdded(cfg: Config, rows: seq<Row>, consumed: seq<nat>, rows': seq<Row>) {
    && |rows| < |rows'| && rows'[..|rows|] == rows
    && forall d :: 0 <= d < |consumed| && WalletOf(cfg.devWallets, d).Some? ==>
      DebitLive(rows', WalletOf(cfg.devWallets, d).value) == ToUnits(consumed[d])
  }

  /**
   From an idle engine of a reachable world the debit phase records if and only if it is asked
   for or late, nothing is in flight, somebody owes and no owed key is taken; it then debits
   every developer for exactly what it consumed and was not debited for.
   */
  lemma DebitStepsIff(cfg: Config, w: World, force: bool, elapsed: bool)
    requires Inv(cfg, w) && w.session.Closed? && Distinct(cfg.devWallets)
    ensures
      var w' := Run(cfg, w, DebitSteps(force, elapsed));
      var records :=
        && !AnyInFlight(w.rows) && (force || elapsed)
        && (exists d :: Owes(cfg, w.rows, w.consumed, d)) && !(exists d :: Blocks(cfg, w.rows, w.consumed, d));
      && w' == w.(rows := w'.rows)
      && (if records then DebitsAdded(cfg, w.rows, w.consumed, w'.rows) else w'.rows == w.rows)
  {
    hide AnyInFlight, Run, Owes, Blocks, DebitsAdded, Inv, PlanDebits, DebitRows, BaseNonce, AnyKeyTaken;
    RunDebit(cfg, w, force, elapsed);
    if !AnyInFlight(w.rows) && (force || elapsed) {
      DebitPhaseIff(cfg, w);
      var orders := PlanDebits(cfg, w.consumed, w.rows, |w.consumed|);
      if !AnyKeyTaken(w.rows, orders) { DebitAdds(cfg, w, orders); }
    }
  }

  lemma DebitAdds(cfg: Config, w: World, orders: seq<DebitOrder>)
    requires Inv(cfg, w) && Distinct(cfg.devWallets) && !AnyInFlight(w.rows)
    requires orders == PlanDebits(cfg, w.consumed, w.rows, |w.consumed|)
    ensures
      var rows' := w.rows + DebitRows(cfg, orders, BaseNonce(w.chain, w.rows));
      |rows'| > |w.rows| ==> DebitsAdded(cfg, w.rows, w.consumed, rows')
    ensures orders == [] ==> DebitRows(cfg, orders, BaseNonce(w.chain, w.rows)) == []
    ensures orders != [] ==> DebitRows(cfg, orders, BaseNonce(w.chain, w.rows)) != []
  {
    hide PlanDebits, DebitLive, OrderUnits;
    var n := |w.consumed|;
    ResolvedMined(cfg, w);
    BaseNonceIs(cfg, w);
    PlanDebitsWallets(cfg, w.consumed, w.rows, n);
    DebitRowsIs(cfg, w.chain, w.rows, orders);
    forall d | 0 <= d < n && WalletOf(cfg.devWallets, d).Some?
      ensures
        var v := WalletOf(cfg.devWallets, d).value;
        DebitLive(w.rows, v) + OrderUnits(cfg, orders, v) == ToUnits(w.consumed[d])
    {
      PlanDebitsIs(cfg, w.consumed, w.rows, n, d);
      assert DebitLive(w.rows, WalletOf(cfg.devWallets, d).value) <= ToUnits(w.consumed[d]);
    }
  }

  // ---- what comes from outside -------------------------------------------------------------------------

  /** Ticks the ledger credited to a provider during a run. */
  function Earnt(steps: seq<Step>, p: nat): nat {
    if steps == [] then 0 else (if steps[0].Earn? && steps[0].p == p then steps[0].ticks else 0) + Earnt(steps[1..], p)
  }

  /** Ticks a developer's jobs consumed during a run. */
  function Used(steps: seq<Step>, d: nat): nat {
    if steps == [] then 0
    else (if steps[0].Consume? && steps[0].d == d then steps[0].ticks else 0) + Used(steps[1..], d)
  }

  /** Units put into the pool from outside during a run. */
  function Funded(steps: seq<Step>): nat {
    if steps == [] then 0 else (if steps[0].Fund? then steps[0].amount else 0) + Funded(steps[1..])
  }

  lemma StepInputs(cfg: Config, w: World, s: Step)
    requires Inv(cfg, w)
    ensures
      var w' := Next(cfg, w, s);
      && |w'.earned| == |w.earned| && |w'.consumed| == |w.consumed|
      && w'.chain.funded == w.chain.funded + (if s.Fund? then s.amount else 0)
      && (forall p :: 0 <= p < |w.earned| ==> w'.earned[p] == w.earned[p] + if s.Earn? && s.p == p then s.ticks else 0)
      && (forall d :: 0 <= d < |w.consumed| ==>
        w'.consumed[d] == w.consumed[d] + if s.Consume? && s.d == d then s.ticks else 0)
  {
    hide Inv, MineBlock, Resolve, PlanLegs, PlanDebits, BatchRows, DebitRows, AnyInFlight, AnyKeyTaken, BaseNonce;
    if s.Mine? { MineFunds(cfg, w); }
  }

  lemma MineFunds(cfg: Config, w: World)
    requires Inv(cfg, w)
    ensures MineBlock(w.chain).funded == w.chain.funded
  {
    MineBlockOk(w.chain, cfg.first);
  }

  /** Earnings, consumption and outside funding are exactly what the run's postings add up to. */
  lemma {:induction false} InputsCounted(cfg: Config, w: World, steps: seq<Step>)
    requires Inv(cfg, w) && Distinct(cfg.devWallets)
    ensures
      var w' := Run(cfg, w, steps);
      && |w'.earned| == |w.earned| && |w'.consumed| == |w.consumed|
      && w'.chain.funded == w.chain.funded + Funded(steps)
      && (forall p :: 0 <= p < |w.earned| ==> w'.earned[p] == w.earned[p] + Earnt(steps, p))
      && (forall d :: 0 <= d < |w.consumed| ==> w'.consumed[d] == w.consumed[d] + Used(steps, d))
    decreases |steps|
  {
    hide Inv, Next;
    if steps != [] {
      StepInputs(cfg, w, steps[0]);
      StepInv(cfg, w, steps[0]);
      InputsCounted(cfg, Next(cfg, w, steps[0]), steps[1..]);
    }
  }

  /** A switch of the chain stays as it was last set, and setting it touches nothing else. */
  lemma Switches(cfg: Config, w: World, kind: Kind, other: Kind, on: bool)
    ensures
      var c := Next(cfg, w, ForceRevert(kind, on)).chain;
      && (kind in c.revertKinds <==> on)
      && (other != kind ==> (other in c.revertKinds <==> other in w.chain.revertKinds))
      && c.(revertKinds := w.chain.revertKinds) == w.chain
    ensures
      var c := Next(cfg, w, HoldPending(on)).chain;
      c.holdPending == on && c.(holdPending := w.chain.holdPending) == w.chain
    ensures
      var c := Next(cfg, w, FailNextSend(on)).chain;
      c.failNextSend == on && c.(failNextSend := w.chain.failNextSend) == w.chain
  {}
}
