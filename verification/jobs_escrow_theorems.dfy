/** Job escrow over whole runs. */
module JobsEscrowTheorems {
  import opened Common
  import opened Money
  import opened Ledger
  import opened Jobs
  import opened JobsSafety
  import opened JobsTheorems
  import opened JobsEscrow
  import JobsLiveness

  /** What a job still holds in escrow. */
  function Outstanding(j: Job): int { if Billed(j) && j.costFinal.None? then j.escrow.value else 0 }

  /** What a job has taken from its developer's balance so far. */
  function Taken(j: Job): int {
    if !Billed(j) then 0 else if j.costFinal.None? then j.escrow.value else j.costFinal.value
  }

  ghost function OutstandingOf(d: nat): Job -> int { (j: Job) => if j.dev == d then Outstanding(j) else 0 }

  ghost predicate JobMoney(w: World, id: nat, d: nat)
    requires id < |w.jobs|
  {
    var j := w.jobs[id];
    && Tagged(w.ledger, Some(id), Escrow, d) == (if d == j.dev then Outstanding(j) else 0)
    && Tagged(w.ledger, Some(id), Developer, d) == (if d == j.dev then -Taken(j) else 0)
  }

  ghost predicate MoneyOk(w: World) {
    && LedgerOk(w.ledger)
    && (forall i :: 0 <= i < |w.ledger| ==> w.ledger[i].job.None? || w.ledger[i].job.value < |w.jobs|)
    && (forall i :: 0 <= i < |w.jobs| && w.jobs[i].costFinal.Some? ==> Terminal(w.jobs[i].status))
    && (forall d: nat :: Tagged(w.ledger, None, Escrow, d) == Sum(w.jobs, OutstandingOf(d)))
    && (forall id: nat, d: nat :: id < |w.jobs| ==> JobMoney(w, id, d))
  }

  lemma {:induction false} UnknownTag(l: seq<Transaction>, id: nat, a: Account, ref: nat)
    requires forall i :: 0 <= i < |l| ==> l[i].job != Some(id)
    ensures Tagged(l, Some(id), a, ref) == 0
  {
    if l != [] { UnknownTag(l[..|l| - 1], id, a, ref); }
  }

  /** Adding a job together with its hold, which may be nothing. */
  lemma AddedMoney(w: World, j: Job)
    requires MoneyOk(w) && j.costFinal.None? && (j.escrow.Some? <==> Billed(j))
    ensures MoneyOk(World(w.jobs + [j], w.ledger + HoldTxs(|w.jobs|, j.dev, if Billed(j) then j.escrow.value else 0)))
  {
    hide Tagged, Balanced, HoldTxs, Sum;
    var n, amount := |w.jobs|, if Billed(j) then j.escrow.value else 0;
    var txs := HoldTxs(n, j.dev, amount);
    var w' := World(w.jobs + [j], w.ledger + txs);
    HoldMoves(n, j.dev, amount, None, Escrow, 0);
    forall d: nat ensures Tagged(w'.ledger, None, Escrow, d) == Sum(w'.jobs, OutstandingOf(d)) {
      TaggedConcat(w.ledger, txs, None, Escrow, d);
      HoldMoves(n, j.dev, amount, None, Escrow, d);
      SumAppend(w.jobs, j, OutstandingOf(d));
    }
    forall id: nat, d: nat | id < |w'.jobs| ensures JobMoney(w', id, d) {
      if id < n { assert JobMoney(w, id, d); } else {
        UnknownTag(w.ledger, id, Escrow, d);
        UnknownTag(w.ledger, id, Developer, d);
      }
      TaggedConcat(w.ledger, txs, Some(id), Escrow, d);
      TaggedConcat(w.ledger, txs, Some(id), Developer, d);
      HoldMoves(n, j.dev, amount, Some(id), Escrow, d);
      HoldMoves(n, j.dev, amount, Some(id), Developer, d);
    }
  }

  lemma NoHold(id: nat, dev: nat)
    ensures HoldTxs(id, dev, 0) == []
  {}

  /** An action that settles nothing leaves the money as it was. */
  lemma QuietMoney(w: World, id: nat, k: Job)
    requires MoneyOk(w) && id < |w.jobs| && Same(w.jobs[id], k)
    requires k.costFinal.Some? ==> Terminal(k.status)
    ensures MoneyOk(w.(jobs := w.jobs[id := k]))
  {
    hide Tagged, LedgerOk, Sum;
    var w' := w.(jobs := w.jobs[id := k]);
    forall d: nat ensures Sum(w'.jobs, OutstandingOf(d)) == Sum(w.jobs, OutstandingOf(d)) {
      SumUpdate(w.jobs, id, k, OutstandingOf(d));
    }
    forall i: nat, d: nat | i < |w'.jobs| ensures JobMoney(w', i, d) {
      assert JobMoney(w, i, d);
    }
  }

  lemma SettleMoney(cfg: Config, w: World, id: nat, k: Job, duration: real, data: nat)
    requires cfg.Valid() && MoneyOk(w) && id < |w.jobs| && Same(w.jobs[id], k)
    requires Billed(k) && k.costFinal.None? && Terminal(k.status)
    ensures MoneyOk(World(w.jobs[id := Settled(cfg, k, duration, data)],
      w.ledger + SettleTxs(cfg, id, k, duration, data)))
  {
    hide Tagged, Balanced, Settled, SettleTxs, SplitOf, Sum;
    var f, txs := Settled(cfg, k, duration, data), SettleTxs(cfg, id, k, duration, data);
    var w' := World(w.jobs[id := f], w.ledger + txs);
    SettledKeeps(cfg, k, duration, data);
    SettleMoves(cfg, id, k, duration, data, None, Escrow, 0);
    forall d: nat ensures Tagged(w'.ledger, None, Escrow, d) == Sum(w'.jobs, OutstandingOf(d)) {
      TaggedConcat(w.ledger, txs, None, Escrow, d);
      SettleMoves(cfg, id, k, duration, data, None, Escrow, d);
      SumUpdate(w.jobs, id, f, OutstandingOf(d));
    }
    forall i: nat, d: nat | i < |w'.jobs| ensures JobMoney(w', i, d) {
      assert JobMoney(w, i, d);
      TaggedConcat(w.ledger, txs, Some(i), Escrow, d);
      TaggedConcat(w.ledger, txs, Some(i), Developer, d);
      SettleMoves(cfg, id, k, duration, data, Some(i), Escrow, d);
      SettleMoves(cfg, id, k, duration, data, Some(i), Developer, d);
    }
  }

  lemma ElsewhereMoney(w: World, t: Transaction)
    requires MoneyOk(w) && t.job.None? && Balanced(t.postings)
    ensures MoneyOk(w.(ledger := w.ledger + [t]))
  {
    hide Tagged, Balanced, Sum;
    var w' := w.(ledger := w.ledger + [t]);
    forall d: nat ensures Tagged(w'.ledger, None, Escrow, d) == Tagged(w.ledger, None, Escrow, d) {
      TaggedAppend(w.ledger, t, None, Escrow, d);
    }
    forall i: nat, d: nat | i < |w'.jobs| ensures JobMoney(w', i, d) {
      assert JobMoney(w, i, d);
      TaggedAppend(w.ledger, t, Some(i), Escrow, d);
      TaggedAppend(w.ledger, t, Some(i), Developer, d);
    }
  }

  lemma ActionMoney(cfg: Config, w: World, id: nat, a: Action)
    requires cfg.Valid() && AllOk(cfg, w) && MoneyOk(w)
    ensures MoneyOk(DoAction(cfg, w, id, a))
  {
    hide JobOk, Act, Tagged, Settled, SettleTxs, MoneyOk;
    if id < |w.jobs| {
      var j := w.jobs[id];
      ActOk(cfg, j, a);
      var k := Act(cfg, j, a).value;
      OpenCost(w, id);
      if Decides(a) && !Terminal(j.status) && Terminal(k.status) {
        if Billed(k) {
          SettleMoney(cfg, w, id, k, a.duration, a.data);
        } else {
          SettleNothing(cfg, id, k, a.duration, a.data);
          assert w.ledger + [] == w.ledger;
          QuietMoney(w, id, k);
        }
      } else {
        CostKept(cfg, j, a);
        QuietMoney(w, id, k);
      }
    }
  }

  lemma OpenCost(w: World, id: nat)
    requires MoneyOk(w) && id < |w.jobs|
    ensures w.jobs[id].costFinal.Some? ==> Terminal(w.jobs[id].status)
  {}

  lemma CostKept(cfg: Config, j: Job, a: Action)
    requires j.costFinal.Some? ==> Terminal(j.status)
    ensures Act(cfg, j, a).Some? && Act(cfg, j, a).value.costFinal.Some? && Terminal(j.status) ==>
      Terminal(Act(cfg, j, a).value.status)
  {
    hide Act;
    if Terminal(j.status) { JobsLiveness.TerminalStays(cfg, j, a); }
  }

  lemma StepMoney(cfg: Config, w: World, s: Step)
    requires cfg.Valid() && AllOk(cfg, w) && MoneyOk(w)
    ensures MoneyOk(Next(cfg, w, s))
  {
    hide MoneyOk, AllOk, DoAction, HoldTxs, ComputeCost, Known;
    match s {
      case Submit(_, _, _, _, _, _, _) => AddedMoney(w, Submitted(cfg, s));
      case SubmitCanary(dev, resources) =>
        AddedMoney(w, NewJob(dev, true, false, 1, resources, None, None));
        NoHold(|w.jobs|, dev);
        assert w.ledger + [] == w.ledger;
      case On(id, a) => ActionMoney(cfg, w, id, a);
      case Elsewhere(t) => if t.job.None? && Balanced(t.postings) { ElsewhereMoney(w, t); }
    }
  }

  lemma {:induction false} RunMoney(cfg: Config, w: World, steps: seq<Step>)
    requires cfg.Valid() && AllOk(cfg, w) && MoneyOk(w)
    ensures MoneyOk(Run(cfg, w, steps))
    decreases |steps|
  {
    hide MoneyOk, AllOk, Next;
    if steps != [] {
      StepJobs(cfg, w, steps[0]);
      StepMoney(cfg, w, steps[0]);
      RunMoney(cfg, Next(cfg, w, steps[0]), steps[1..]);
    }
  }

  /**
   In every reachable state, whatever other components post: the job-tagged escrow of a
   developer is the sum of the holds of its billed jobs without a final cost; each job holds
   exactly its own escrow until then and nothing after; and once settled it has taken exactly
   its final cost from its developer and nothing from anyone else.
   */
  lemma EscrowExact(cfg: Config, steps: seq<Step>)
    requires cfg.Valid()
    ensures
      var w := Run(cfg, EMPTY, steps);
      && LedgerOk(w.ledger)
      && (forall d: nat :: Tagged(w.ledger, None, Escrow, d) == Sum(w.jobs, OutstandingOf(d)))
      && (forall id: nat, d: nat :: id < |w.jobs| ==> JobMoney(w, id, d))
  {
    hide Run;
    assert MoneyOk(EMPTY);
    RunMoney(cfg, EMPTY, steps);
  }
}
