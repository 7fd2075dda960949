/** Which jobs end with their cost open, and that their escrow is then held for ever. */
module JobsStranded {
  import opened Common
  import opened Money
  import opened Ledger
  import opened Quorum
  import opened Jobs
  import opened JobsSafety
  import opened JobsTheorems
  import opened JobsLiveness
  import opened JobsEscrow
  import opened JobsEscrowTheorems

  /** A reaper takes a job whose rounds are used up: its lease lapsed, or its provider went silent. */
  predicate GivesUp(cfg: Config, j: Job, a: Action) {
    && j.rounds >= cfg.maxAttempts
    && match a
       case Reap(now) => Expired(j, now)
       case Drain(gone) => Jobs.Stranded(j, gone)
       case _ => false
  }

  /** A billed job that is over without a final cost. */
  predicate Abandoned(j: Job) { Billed(j) && Terminal(j.status) && j.costFinal.None? }

  lemma QuietActions(cfg: Config, j: Job, a: Action)
    requires !Terminal(j.status) && (a.Assign? || a.Heartbeat? || a.Report?) && Act(cfg, j, a).Some?
    ensures !Terminal(Act(cfg, j, a).value.status)
  {}

  lemma Closes(cfg: Config, j: Job, duration: real, data: nat)
    requires Billed(j)
    ensures Settled(cfg, j, duration, data).costFinal.Some?
  {
    hide Winner, CostOf;
  }

  lemma ReclaimAbandons(cfg: Config, j: Job, a: Action)
    requires cfg.Valid() && JobOk(cfg, j) && !Terminal(j.status) && (a.Reap? || a.Drain?)
    ensures Act(cfg, j, a).Some? && (Terminal(Act(cfg, j, a).value.status) <==> GivesUp(cfg, j, a))
  {
    hide JobOk, Reclaim;
    if InFlight(j.status) && j.redundancy == 1 { ReclaimOk(cfg, j); }
  }

  lemma ActAbandonsIff(cfg: Config, w: World, id: nat, a: Action)
    requires cfg.Valid() && AllOk(cfg, w) && MoneyOk(w) && id < |w.jobs| && Billed(w.jobs[id])
    requires !Terminal(w.jobs[id].status)
    ensures id < |DoAction(cfg, w, id, a).jobs|
    ensures Abandoned(DoAction(cfg, w, id, a).jobs[id]) <==> GivesUp(cfg, w.jobs[id], a)
    ensures GivesUp(cfg, w.jobs[id], a) ==>
      DoAction(cfg, w, id, a).ledger == w.ledger && DoAction(cfg, w, id, a).jobs[id].status == Failed
  {
    hide JobOk, Act, Settled, SettleTxs, MoneyOk, Expired, Stranded;
    var j := w.jobs[id];
    ActOk(cfg, j, a);
    OpenCost(w, id);
    var k := Act(cfg, j, a).value;
    match a {
      case Result(_, _, _, _, duration, data) => Closes(cfg, k, duration, data); SettledKeeps(cfg, k, duration, data);
      case ReapAttempts(_, duration, data) => Closes(cfg, k, duration, data); SettledKeeps(cfg, k, duration, data);
      case Reap(_) => ReclaimAbandons(cfg, j, a); GivenUpFails(cfg, j, a);
      case Drain(_) => ReclaimAbandons(cfg, j, a); GivenUpFails(cfg, j, a);
      case _ => QuietActions(cfg, j, a);
    }
  }

  lemma GivenUpFails(cfg: Config, j: Job, a: Action)
    requires cfg.Valid() && JobOk(cfg, j)
    ensures GivesUp(cfg, j, a) ==> Act(cfg, j, a).Some? && Act(cfg, j, a).value.status == Failed
  {
    hide JobOk, Reclaim;
    if GivesUp(cfg, j, a) { ReclaimOk(cfg, j); }
  }

  /**
   From every reachable state, a step ends an unfinished billed job without a final cost if and
   only if it is a reaper's, by lease or by silent provider, on that job with its rounds used up.
   */
  lemma AbandonedIff(cfg: Config, steps: seq<Step>, s: Step, id: nat)
    requires cfg.Valid() && id < |Run(cfg, EMPTY, steps).jobs|
    requires Billed(Run(cfg, EMPTY, steps).jobs[id]) && !Terminal(Run(cfg, EMPTY, steps).jobs[id].status)
    ensures
      var w := Run(cfg, EMPTY, steps);
      var w' := Next(cfg, w, s);
      && id < |w'.jobs|
      && (Abandoned(w'.jobs[id]) <==> s.On? && s.job == id && GivesUp(cfg, w.jobs[id], s.action))
  {
    hide Run, JobOk, MoneyOk, GivesUp, Act, Settled, SettleTxs, ComputeCost, Known, HoldTxs;
    EmptyMoney();
    RunJobs(cfg, EMPTY, steps);
    RunMoney(cfg, EMPTY, steps);
    var w := Run(cfg, EMPTY, steps);
    if s.On? && s.job == id { ActAbandonsIff(cfg, w, id, s.action); }
  }

  lemma EmptyMoney()
    ensures MoneyOk(EMPTY)
  {}

  /** The escrow of an abandoned job is never released: in every continuation it is all still held. */
  lemma AbandonedForever(cfg: Config, steps: seq<Step>, id: nat, more: seq<Step>)
    requires cfg.Valid() && id < |Run(cfg, EMPTY, steps).jobs| && Abandoned(Run(cfg, EMPTY, steps).jobs[id])
    ensures
      var j, w := Run(cfg, EMPTY, steps).jobs[id], Run(cfg, Run(cfg, EMPTY, steps), more);
      && id < |w.jobs| && w.jobs[id] == j
      && Tagged(w.ledger, Some(id), Escrow, j.dev) == j.escrow.value
      && Tagged(w.ledger, Some(id), Developer, j.dev) == 0 - j.escrow.value
  {
    hide Run, JobOk, Tagged, LedgerOk, Sum;
    EmptyMoney();
    RunJobs(cfg, EMPTY, steps);
    RunMoney(cfg, EMPTY, steps);
    var w := Run(cfg, EMPTY, steps);
    RunMoney(cfg, w, more);
    TerminalFrozen(cfg, w, more, id);
    assert JobMoney(Run(cfg, w, more), id, w.jobs[id].dev);
  }

  // ---- and it happens ------------------------------------------------------------------------------------

  /** One round, at a hundred ticks a core-minute. */
  const ONCE := Config(1, 250, 100.0)

  const MINUTE := Submit(0, false, 1, Resources(1, false), 60, None, None)

  lemma MinuteCosts()
    ensures ComputeCost(ONCE, Resources(1, false), 60 as real) == 100
  {
    HalfUpOfInt(100);
    assert ComputeCost(ONCE, Resources(1, false), 60.0) == Natural(HalfUp(100.0));
  }

  /** The job submitted, assigned, and let go by one of the two reapers. */
  lemma LetGo(a: Action)
    requires a == Reap(11) || a == Drain({7})
    ensures
      var w := Run(ONCE, EMPTY, [MINUTE, On(0, Assign([7], 10)), On(0, a)]);
      && |w.jobs| == 1 && Abandoned(w.jobs[0]) && w.jobs[0].escrow == Some(100)
      && Tagged(w.ledger, Some(0), Escrow, 0) == 100
  {
    hide Run, Next, Tagged, ComputeCost;
    var s1, s2 := On(0, Assign([7], 10)), On(0, a);
    RunNothing(ONCE, EMPTY);
    RunSnoc(ONCE, EMPTY, [], MINUTE);
    RunSnoc(ONCE, EMPTY, [MINUTE], s1);
    RunSnoc(ONCE, EMPTY, [MINUTE, s1], s2);
    assert [] + [MINUTE] == [MINUTE] && [MINUTE] + [s1] == [MINUTE, s1] && [MINUTE, s1] + [s2] == [MINUTE, s1, s2];
    Lets(a);
    AbandonedForever(ONCE, [MINUTE, s1, s2], 0, []);
    RunNothing(ONCE, Run(ONCE, EMPTY, [MINUTE, s1, s2]));
  }

  lemma Lets(a: Action)
    requires a == Reap(11) || a == Drain({7})
    ensures
      var w := Next(ONCE, Next(ONCE, Next(ONCE, EMPTY, MINUTE), On(0, Assign([7], 10))), On(0, a));
      |w.jobs| == 1 && Abandoned(w.jobs[0]) && w.jobs[0].escrow == Some(100) && w.jobs[0].dev == 0
  {
    hide ComputeCost, HoldTxs, SettleTxs, Settled;
    MinuteCosts();
    var w1 := Next(ONCE, EMPTY, MINUTE);
    assert w1.jobs == [Submitted(ONCE, MINUTE)];
    var w2 := Next(ONCE, w1, On(0, Assign([7], 10)));
    var j := w2.jobs[0];
    assert |w2.jobs| == 1 && j.status == Assigned && j.provider == Some(7) && j.lease == Some(10) && j.rounds == 1;
  }
}
