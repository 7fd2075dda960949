/** The job lifecycle over whole runs: budgets, termination, quorum, and when a job can end. */
module JobsTheorems {
  import opened Common
  import opened Ledger
  import opened Quorum
  import opened Jobs
  import opened JobsSafety

  ghost predicate AllOk(cfg: Config, w: World) {
    forall i :: 0 <= i < |w.jobs| ==> JobOk(cfg, w.jobs[i])
  }

  lemma SettledOk(cfg: Config, j: Job, duration: real, data: nat)
    requires JobOk(cfg, j)
    ensures JobOk(cfg, Settled(cfg, j, duration, data))
  {
    hide Evaluate, Votes, Winner, CostOf;
  }

  lemma NewOk(cfg: Config, j: Job)
    requires cfg.Valid() && j == NewJob(j.dev, j.canary, j.highValue, j.redundancy, j.resources, j.escrow, j.key)
    ensures JobOk(cfg, j)
  {}

  lemma StepJobs(cfg: Config, w: World, s: Step)
    requires cfg.Valid() && AllOk(cfg, w)
    ensures AllOk(cfg, Next(cfg, w, s))
    ensures |w.jobs| <= |Next(cfg, w, s).jobs|
  {
    hide JobOk, Act, Settled, SettleTxs, ComputeCost, Known, HoldTxs;
    match s {
      case Submit(_, _, _, _, _, _, _) => NewOk(cfg, Submitted(cfg, s));
      case SubmitCanary(dev, resources) => NewOk(cfg, NewJob(dev, true, false, 1, resources, None, None));
      case Elsewhere(_) =>
      case On(id, a) =>
        if id < |w.jobs| {
          ActOk(cfg, w.jobs[id], a);
          if Decides(a) { SettledOk(cfg, Act(cfg, w.jobs[id], a).value, a.duration, a.data); }
        }
    }
  }

  lemma {:induction false} RunJobs(cfg: Config, w: World, steps: seq<Step>)
    requires cfg.Valid() && AllOk(cfg, w)
    ensures AllOk(cfg, Run(cfg, w, steps))
    ensures |w.jobs| <= |Run(cfg, w, steps).jobs|
    decreases |steps|
  {
    hide Next, AllOk;
    if steps != [] {
      StepJobs(cfg, w, steps[0]);
      RunJobs(cfg, Next(cfg, w, steps[0]), steps[1..]);
    }
  }

  lemma Reachable(cfg: Config, steps: seq<Step>, id: nat)
    requires cfg.Valid() && id < |Run(cfg, EMPTY, steps).jobs|
    ensures JobOk(cfg, Run(cfg, EMPTY, steps).jobs[id])
  {
    hide Run, JobOk;
    RunJobs(cfg, EMPTY, steps);
  }

  function Unfinished(attempts: seq<Attempt>): int { |attempts| - |Votes(attempts)| }

  lemma {:induction false} VotesPrefix(attempts: seq<Attempt>)
    requires attempts != []
    ensures |Votes(attempts)| ==
      |Votes(attempts[..|attempts| - 1])| + if attempts[|attempts| - 1].finished then 1 else 0
  {
    if |attempts| > 1 {
      VotesPrefix(attempts[1..]);
      assert attempts[1..][..|attempts| - 2] == attempts[..|attempts| - 1][1..];
    } else {
      assert attempts[1..] == [] && attempts[..0] == [];
    }
  }

  lemma {:induction false} AllFinished(attempts: seq<Attempt>)
    requires forall i :: 0 <= i < |attempts| ==> attempts[i].finished
    ensures |Votes(attempts)| == |attempts|
  {
    if attempts != [] { AllFinished(attempts[1..]); }
  }

  /**
   In every reachable state a job has used at most its rounds, strictly fewer when queued; a
   job run singly has exactly one unfinished attempt when in flight and none otherwise; it
   holds a lease exactly when in flight; and it has changed status at most three times a round.
   */
  lemma AttemptBudget(cfg: Config, steps: seq<Step>, id: nat)
    requires cfg.Valid() && id < |Run(cfg, EMPTY, steps).jobs|
    ensures
      var j := Run(cfg, EMPTY, steps).jobs[id];
      && j.rounds <= cfg.maxAttempts && (j.status == Queued ==> j.rounds < cfg.maxAttempts)
      && (j.redundancy == 1 ==> Unfinished(j.attempts) == if InFlight(j.status) then 1 else 0)
      && (InFlight(j.status) <==> j.lease.Some?)
      && j.moves <= 3 * cfg.maxAttempts
  {
    hide Run, Votes, Evaluate;
    Reachable(cfg, steps, id);
    var j := Run(cfg, EMPTY, steps).jobs[id];
    if j.redundancy == 1 {
      if InFlight(j.status) {
        var n := |j.attempts| - 1;
        VotesPrefix(j.attempts);
        AllFinished(j.attempts[..n]);
      } else {
        AllFinished(j.attempts);
      }
    }
  }

  /** No reachable job is ever asked for a transition its status machine forbids. */
  lemma AlwaysLegal(cfg: Config, steps: seq<Step>, id: nat, a: Action)
    requires cfg.Valid() && id < |Run(cfg, EMPTY, steps).jobs|
    ensures Act(cfg, Run(cfg, EMPTY, steps).jobs[id], a).Some?
  {
    hide Run, Act, JobOk;
    Reachable(cfg, steps, id);
    ActOk(cfg, Run(cfg, EMPTY, steps).jobs[id], a);
  }

  lemma {:induction false} FewUsable(attempts: seq<Attempt>)
    ensures |Pick(Votes(attempts), Usable())| <= |attempts|
  {
    VotesAre(attempts);
    PickIs(Votes(attempts), Usable());
  }

  /** Lost attempts never vote usably, so a job run singly has at most one usable vote. */
  lemma {:induction false} LostUnusable(attempts: seq<Attempt>)
    requires forall i :: 0 <= i < |attempts| - 1 ==> attempts[i].fate == Lost
    ensures |Pick(Votes(attempts), Usable())| <= 1
    decreases |attempts|
  {
    if |attempts| <= 1 {
      FewUsable(attempts);
    } else {
      LostUnusable(attempts[1..]);
      var rest := Votes(attempts[1..]);
      if attempts[0].finished {
        assert Votes(attempts) == [VoteOf(attempts[0])] + rest;
        assert ([VoteOf(attempts[0])] + rest)[1..] == rest;
      } else {
        assert Votes(attempts) == rest;
      }
    }
  }

  /**
   In every reachable state: a redundant job was assigned at most once, to at most K different
   providers; the order in which its finished attempts are read cannot change the decision; and
   a completed job's stored proof is of the hash that decision names.
   */
  lemma QuorumSound(cfg: Config, steps: seq<Step>, id: nat, other: seq<Vote>)
    requires cfg.Valid() && id < |Run(cfg, EMPTY, steps).jobs|
    requires multiset(other) == multiset(Votes(Run(cfg, EMPTY, steps).jobs[id].attempts))
    ensures
      var j := Run(cfg, EMPTY, steps).jobs[id];
      var x, y := Evaluate(Votes(j.attempts), j.redundancy), Evaluate(other, j.redundancy);
      && (j.redundancy > 1 ==> j.rounds <= 1 && |j.attempts| <= j.redundancy && DistinctProviders(j.attempts))
      && x.winner == y.winner && multiset(x.agreers) == multiset(y.agreers)
      && multiset(x.disagreers) == multiset(y.disagreers)
      && (j.status == Completed ==> j.proof.Some? && j.proof == y.winner)
  {
    hide Run, Votes, Evaluate, Tied, Pick;
    Reachable(cfg, steps, id);
    var j := Run(cfg, EMPTY, steps).jobs[id];
    FewUsable(j.attempts);
    if j.redundancy == 1 { LostUnusable(j.attempts); }
    FewCannotTie(Votes(j.attempts), j.redundancy);
    OrderIndependent(Votes(j.attempts), other, j.redundancy);
  }

  // ---- idempotent submission -----------------------------------------------------------------------

  ghost predicate KeysUnique(jobs: seq<Job>) {
    forall i, k :: 0 <= i < k < |jobs| ==> !SameKey(jobs[k], jobs[i].dev, jobs[i].key)
  }

  lemma SettledKeeps(cfg: Config, j: Job, duration: real, data: nat)
    ensures
      var k := Settled(cfg, j, duration, data);
      k.dev == j.dev && k.escrow == j.escrow && k.canary == j.canary && k.status == j.status && k.key == j.key
  {
    hide Winner, CostOf;
  }

  lemma StepKeys(cfg: Config, w: World, s: Step)
    requires cfg.Valid() && AllOk(cfg, w) && KeysUnique(w.jobs)
    ensures KeysUnique(Next(cfg, w, s).jobs)
  {
    hide JobOk, Act, Settled, SettleTxs, ComputeCost, HoldTxs;
    match s {
      case Submit(_, _, _, _, _, _, _) =>
      case SubmitCanary(_, _) =>
      case Elsewhere(_) =>
      case On(id, a) =>
        if id < |w.jobs| {
          ActOk(cfg, w.jobs[id], a);
          if Decides(a) { SettledKeeps(cfg, Act(cfg, w.jobs[id], a).value, a.duration, a.data); }
        }
    }
  }

  lemma {:induction false} RunKeys(cfg: Config, w: World, steps: seq<Step>)
    requires cfg.Valid() && AllOk(cfg, w) && KeysUnique(w.jobs)
    ensures KeysUnique(Run(cfg, w, steps).jobs)
    decreases |steps|
  {
    hide Next, AllOk, KeysUnique;
    if steps != [] {
      StepJobs(cfg, w, steps[0]);
      StepKeys(cfg, w, steps[0]);
      RunKeys(cfg, Next(cfg, w, steps[0]), steps[1..]);
    }
  }

  /** In every reachable state a developer has at most one job per idempotency key, and a repeat changes nothing. */
  lemma SubmitOnce(cfg: Config, steps: seq<Step>, s: Step)
    requires cfg.Valid() && s.Submit? && s.key.Some?
    ensures
      var w := Run(cfg, EMPTY, steps);
      KeysUnique(w.jobs) && Next(cfg, Next(cfg, w, s), s) == Next(cfg, w, s)
  {
    hide Run, ComputeCost, HoldTxs;
    RunKeys(cfg, EMPTY, steps);
    var w := Run(cfg, EMPTY, steps);
    var w1 := DoSubmit(cfg, w, s);
    if w1 != w { assert SameKey(w1.jobs[|w.jobs|], s.dev, s.key); }
  }
}
