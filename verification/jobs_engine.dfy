/** The job store as the handlers, the scheduler and the reapers change it in place. */
module JobsEngine {
  import opened Common
  import opened Money
  import opened Ledger
  import opened Quorum
  import opened Jobs
  import opened JobsSafety
  import opened JobsTheorems
  import opened JobsEscrow
  import JobsLiveness

  /** One action on each of the first `n` jobs in turn. */
  function Sweep(n: nat, action: Action): seq<Step> {
    seq(n, i requires 0 <= i < n => On(i, action))
  }

  /** The attempt reaper's pass over the first `n` jobs, with what each job would be billed on. */
  function AttemptSweep(now: int, bills: seq<(real, nat)>, n: nat): seq<Step>
    requires n <= |bills|
  {
    seq(n, i requires 0 <= i < n => On(i, ReapAttempts(now, bills[i].0, bills[i].1)))
  }

  lemma SweepSnoc(cfg: Config, w: World, n: nat, action: Action)
    ensures Run(cfg, w, Sweep(n + 1, action)) == Next(cfg, Run(cfg, w, Sweep(n, action)), On(n, action))
  {
    hide Next, Run;
    assert Sweep(n + 1, action) == Sweep(n, action) + [On(n, action)];
    JobsLiveness.RunSnoc(cfg, w, Sweep(n, action), On(n, action));
  }

  /** The settlement postings all balance, billed or not. */
  lemma SettleBalanced(cfg: Config, id: nat, j: Job, duration: real, data: nat)
    requires cfg.Valid()
    ensures LedgerOk(SettleTxs(cfg, id, j, duration, data))
  {
    hide SettleTxs, Tagged, SplitOf, Settled;
    if Billed(j) {
      SettleMoves(cfg, id, j, duration, data, None, Escrow, 0);
    } else {
      SettleNothing(cfg, id, j, duration, data);
    }
  }

  // ---- what the steps come to --------------------------------------------------------------

  /** A reaper's step: the reclaimed job in place, or nothing. */
  lemma ReclaimStep(cfg: Config, w: World, id: nat, a: Action)
    requires cfg.Valid() && AllOk(cfg, w) && id < |w.jobs| && (a.Reap? || a.Drain?)
    ensures
      var taken := if a.Reap? then Expired(w.jobs[id], a.now) else Stranded(w.jobs[id], a.gone);
      && (taken ==>
        && Reclaim(cfg, w.jobs[id]).Some?
        && Next(cfg, w, On(id, a)) == w.(jobs := w.jobs[id := Reclaim(cfg, w.jobs[id]).value]))
      && (!taken ==> Next(cfg, w, On(id, a)) == w)
  {
    hide JobOk, Reclaim;
    var taken := if a.Reap? then Expired(w.jobs[id], a.now) else Stranded(w.jobs[id], a.gone);
    assert w.jobs[id := w.jobs[id]] == w.jobs;
    if taken { ReclaimOk(cfg, w.jobs[id]); }
  }

  /** The world once a job's votes have been counted. */
  function Decided(cfg: Config, w: World, id: nat, r: Option<Job>, duration: real, data: nat): World
    requires id < |w.jobs| && r.Some?
  {
    if Terminal(r.value.status)
    then World(w.jobs[id := Settled(cfg, r.value, duration, data)],
      w.ledger + SettleTxs(cfg, id, r.value, duration, data))
    else w.(jobs := w.jobs[id := r.value])
  }

  lemma ResultStep(cfg: Config, w: World, id: nat, a: Action)
    requires cfg.Valid() && AllOk(cfg, w) && id < |w.jobs| && a.Result?
    ensures
      var j := w.jobs[id];
      var r := DoResult(j, a.provider, a.late, a.valid, a.hash);
      && r.Some?
      && (!Owns(j, a.provider) ==> Next(cfg, w, On(id, a)) == w)
      && (Owns(j, a.provider) ==> Next(cfg, w, On(id, a)) == Decided(cfg, w, id, r, a.duration, a.data))
  {
    hide JobOk, Settled, SettleTxs, MaybeFinalize;
    assert w.jobs[id := w.jobs[id]] == w.jobs;
    ActOk(cfg, w.jobs[id], a);
  }

  lemma ReapAttemptsStep(cfg: Config, w: World, id: nat, a: Action)
    requires cfg.Valid() && AllOk(cfg, w) && id < |w.jobs| && a.ReapAttempts?
    ensures
      var j := w.jobs[id];
      var r := MaybeFinalize(j.(attempts := Expire(j.attempts, a.now)));
      var taken := InFlight(j.status) && j.redundancy > 1 && exists b :: b in j.attempts && Stale(b, a.now);
      && (!taken ==> Next(cfg, w, On(id, a)) == w)
      && (taken ==> r.Some? && Next(cfg, w, On(id, a)) == Decided(cfg, w, id, r, a.duration, a.data))
  {
    hide JobOk, Settled, SettleTxs, MaybeFinalize;
    assert w.jobs[id := w.jobs[id]] == w.jobs;
    ActOk(cfg, w.jobs[id], a);
  }

  class JobStore {
    const cfg: Config
    const book: Book
    var jobs: seq<Job>

    ghost function State(): World
      reads this, book
    {
      World(jobs, book.txs)
    }

    ghost predicate Valid()
      reads this, book
    {
      cfg.Valid() && book.Valid() && AllOk(cfg, State())
    }

    constructor (cfg: Config, book: Book)
      requires cfg.Valid() && book.Valid()
      ensures Valid() && this.cfg == cfg && this.book == book && jobs == []
    {
      this.cfg, this.book, jobs := cfg, book, [];
    }

    method PostAll(txs: seq<Transaction>)
      requires book.Valid() && LedgerOk(txs)
      modifies book
      ensures book.Valid() && book.txs == old(book.txs) + txs
    {
      for i := 0 to |txs|
        invariant book.Valid() && book.txs == old(book.txs) + txs[..i]
      {
        var ok := book.PostTransaction(txs[i]);
        assert txs[..i + 1] == txs[..i] + [txs[i]];
      }
      assert txs[..|txs|] == txs;
    }

    /** Whether the developer already submitted under this key. */
    method Existing(dev: nat, key: Option<nat>) returns (found: bool)
      ensures found <==> Known(jobs, dev, key)
    {
      for i := 0 to |jobs|
        invariant forall k :: 0 <= k < i ==> !SameKey(jobs[k], dev, key)
      {
        if SameKey(jobs[i], dev, key) {
          return true;
        }
      }
      found := false;
    }

    /** Submit a job: a repeat of a key or an uncovered estimate changes nothing. */
    method SubmitJob(s: Step) returns (created: bool)
      requires Valid() && s.Submit?
      modifies this`jobs, book
      ensures Valid() && State() == old(Next(cfg, State(), s))
      ensures created <==> !old(Known(jobs, s.dev, s.key)) && !Unaffordable(cfg, s)
    {
      hide JobOk, ComputeCost, Balanced;
      StepJobs(cfg, State(), s);
      var found := Existing(s.dev, s.key);
      if found {
        return false;
      }
      var escrow := ComputeCost(cfg, s.resources, s.timeout as real);
      if s.available.Some? && s.available.value < escrow {
        return false;
      }
      var j := Submitted(cfg, s);
      HoldMoves(|jobs|, j.dev, escrow, None, Escrow, 0);
      PostAll(HoldTxs(|jobs|, j.dev, escrow));
      jobs := jobs + [j];
      created := true;
    }

    method AssignProviders(id: nat, candidates: Candidates, lease: int) returns (providers: seq<nat>)
      requires Valid() && id < |jobs|
      modifies this`jobs
      ensures Valid() && State() == old(Next(cfg, State(), On(id, Assign(candidates, lease))))
      ensures providers == if old(jobs[id]).status == Queued
        then Take(candidates, if old(jobs[id]).highValue then old(jobs[id]).redundancy else 1) else []
    {
      hide JobOk;
      StepJobs(cfg, State(), On(id, Assign(candidates, lease)));
      var j := jobs[id];
      if j.status != Queued {
        return [];
      }
      providers := Take(candidates, if j.highValue then j.redundancy else 1);
      if providers == [] {
        return;
      }
      var attempts := j.attempts;
      for i := 0 to |providers|
        invariant attempts == j.attempts + NewAttempts(providers[..i], lease)
      {
        attempts := attempts + [Attempt(providers[i], Given, false, lease, None)];
        assert NewAttempts(providers[..i + 1], lease) ==
          NewAttempts(providers[..i], lease) + [Attempt(providers[i], Given, false, lease, None)];
      }
      assert providers[..|providers|] == providers;
      var k := Transition(j, Assigned).value;
      k := k.(provider := Some(providers[0]), lease := Some(lease), rounds := j.rounds + 1, attempts := attempts);
      jobs := jobs[id := k];
    }

    method Heartbeat(id: nat, provider: nat, lease: int) returns (accepted: bool)
      requires Valid() && id < |jobs|
      modifies this`jobs
      ensures Valid() && State() == old(Next(cfg, State(), On(id, Action.Heartbeat(provider, lease))))
      ensures accepted == old(Owns(jobs[id], provider))
    {
      hide JobOk;
      StepJobs(cfg, State(), On(id, Action.Heartbeat(provider, lease)));
      var j := jobs[id];
      var i := FindAttempt(j.attempts, provider);
      accepted := i < |j.attempts| && InFlight(j.status);
      if accepted {
        j := j.(lease := Some(lease));
        j := j.(attempts := j.attempts[i := j.attempts[i].(lease := lease)]);
        jobs := jobs[id := j];
      }
    }

    method ReportStatus(id: nat, provider: nat) returns (accepted: bool)
      requires Valid() && id < |jobs|
      modifies this`jobs
      ensures Valid() && State() == old(Next(cfg, State(), On(id, Report(provider))))
      ensures accepted == old(Owns(jobs[id], provider))
    {
      hide JobOk;
      StepJobs(cfg, State(), On(id, Report(provider)));
      var j := jobs[id];
      var i := FindAttempt(j.attempts, provider);
      accepted := i < |j.attempts| && InFlight(j.status);
      if accepted {
        if j.status == Assigned {
          j := Transition(j, Running).value;
        }
        j := j.(attempts := j.attempts[i := j.attempts[i].(fate := Begun)]);
        jobs := jobs[id := j];
      }
    }

    /** Decide a job once every vote is in, and settle it. */
    method FinalizeIfDecided(id: nat, duration: real, data: nat)
      requires cfg.Valid() && book.Valid() && id < |jobs| && Votable(cfg, jobs[id])
      requires jobs[id].redundancy == 1 ==> jobs[id].attempts != [] && forall i :: 0 <= i < |jobs[id].attempts| ==>
        jobs[id].attempts[i].finished
      modifies this`jobs, book
      ensures book.Valid()
      ensures old(MaybeFinalize(jobs[id])).Some?
      ensures State() == Decided(cfg, old(State()), id, old(MaybeFinalize(jobs[id])), duration, data)
    {
      hide Evaluate, Votable, Settled, SettleTxs, Winner, Balanced;
      var j := jobs[id];
      MaybeFinalizeOk(cfg, j);
      if |Votes(j.attempts)| < j.redundancy {
        assert jobs[id := j] == jobs;
        return;
      }
      var k;
      var outcome := Evaluate(Votes(j.attempts), j.redundancy);
      if outcome.winner.Some? {
        k := Transition(j.(proof := Winner(j).value.hash), Completed).value;
      } else if AllLate(j.attempts) {
        k := Transition(j, TimedOut).value;
      } else {
        k := Transition(j, Failed).value;
      }
      SettleBalanced(cfg, id, k, duration, data);
      PostAll(SettleTxs(cfg, id, k, duration, data));
      jobs := jobs[id := Settled(cfg, k, duration, data)];
    }

    /** Record one provider's result. */
    method SubmitResult(id: nat, provider: nat, late: bool, valid: bool, hash: Option<nat>, duration: real, data: nat)
      returns (status: Status)
      requires Valid() && id < |jobs|
      modifies this`jobs, book
      ensures Valid() && State() == old(Next(cfg, State(), On(id, Result(provider, late, valid, hash, duration, data))))
      ensures status == jobs[id].status
    {
      hide JobOk, Votable, MaybeFinalize, Settled, SettleTxs, Next;
      ghost var w, step := State(), On(id, Result(provider, late, valid, hash, duration, data));
      StepJobs(cfg, w, step);
      ResultStep(cfg, w, id, step.action);
      var j := jobs[id];
      assert JobOk(cfg, j);
      var i := FindAttempt(j.attempts, provider);
      if i == |j.attempts| || !InFlight(j.status) {
        return j.status;
      }
      ResultVotable(cfg, j, i, late, valid, hash);
      if j.status == Assigned {
        j := Transition(j, Running).value;
      }
      var a := j.attempts[i];
      a := a.(finished := true, hash := hash);
      a := a.(fate := Judged(late, valid));
      j := j.(attempts := j.attempts[i := a]);
      jobs := jobs[id := j];
      FinalizeIfDecided(id, duration, data);
      assert State() == Decided(cfg, w, id, MaybeFinalize(j), duration, data);
      status := jobs[id].status;
    }

    /** Reclaim one job in flight; true when it was requeued. */
    method ReclaimJob(id: nat) returns (requeued: bool)
      requires Valid() && id < |jobs| && InFlight(jobs[id].status) && jobs[id].redundancy == 1
      modifies this`jobs
      ensures jobs == old(jobs)[id := old(Reclaim(cfg, jobs[id])).value]
      ensures requeued <==> old(jobs[id]).rounds < cfg.maxAttempts
    {
      hide JobOk;
      assert JobOk(cfg, jobs[id]);
      ReclaimOk(cfg, jobs[id]);
      var j := jobs[id];
      var n := |j.attempts|;
      requeued := j.rounds < cfg.maxAttempts;
      if n > 0 {
        var last := j.attempts[n - 1].(finished := true, fate := if requeued then Lost else Errored);
        j := j.(attempts := j.attempts[n - 1 := last]);
      }
      j := Transition(j, if requeued then Queued else Failed).value;
      jobs := jobs[id := j];
    }

    /** Reclaim every singly-run job whose lease has lapsed. */
    method ReapExpiredLeases(now: int) returns (requeued: seq<nat>)
      requires Valid()
      modifies this`jobs
      ensures Valid() && State() == old(Run(cfg, State(), Sweep(|jobs|, Reap(now))))
      ensures forall i: nat :: i in requeued <==>
        i < old(|jobs|) && old(Expired(jobs[i], now)) && old(jobs[i].rounds) < cfg.maxAttempts
    {
      hide JobOk, Reclaim, Next;
      requeued := [];
      for i := 0 to |jobs|
        invariant Valid() && |jobs| == old(|jobs|) && book.txs == old(book.txs)
        invariant State() == Run(cfg, old(State()), Sweep(i, Reap(now)))
        invariant forall k :: i <= k < |jobs| ==> jobs[k] == old(jobs[k])
        invariant forall k: nat :: k in requeued <==>
          k < i && old(Expired(jobs[k], now)) && old(jobs[k].rounds) < cfg.maxAttempts
      {
        SweepSnoc(cfg, old(State()), i, Reap(now));
        StepJobs(cfg, State(), On(i, Reap(now)));
        ReclaimStep(cfg, State(), i, Reap(now));
        if Expired(jobs[i], now) {
          var back := ReclaimJob(i);
          if back {
            requeued := requeued + [i];
          }
        }
      }
    }

    /** Reclaim every singly-run job of a provider that has gone silent. */
    method DrainUnreachableProviders(gone: set<nat>) returns (requeued: seq<nat>)
      requires Valid()
      modifies this`jobs
      ensures Valid() && State() == old(Run(cfg, State(), Sweep(|jobs|, Drain(gone))))
      ensures forall i: nat :: i in requeued <==>
        i < old(|jobs|) && old(Stranded(jobs[i], gone)) && old(jobs[i].rounds) < cfg.maxAttempts
    {
      hide JobOk, Reclaim, Next;
      requeued := [];
      for i := 0 to |jobs|
        invariant Valid() && |jobs| == old(|jobs|) && book.txs == old(book.txs)
        invariant State() == Run(cfg, old(State()), Sweep(i, Drain(gone)))
        invariant forall k :: i <= k < |jobs| ==> jobs[k] == old(jobs[k])
        invariant forall k: nat :: k in requeued <==>
          k < i && old(Stranded(jobs[k], gone)) && old(jobs[k].rounds) < cfg.maxAttempts
      {
        SweepSnoc(cfg, old(State()), i, Drain(gone));
        StepJobs(cfg, State(), On(i, Drain(gone)));
        ReclaimStep(cfg, State(), i, Drain(gone));
        if Stranded(jobs[i], gone) {
          var back := ReclaimJob(i);
          if back {
            requeued := requeued + [i];
          }
        }
      }
    }

    /** Mark a redundant job's stale attempts lost and decide it if that was the last vote missing. */
    method ReapJobAttempts(id: nat, now: int, duration: real, data: nat)
      requires Valid() && id < |jobs|
      modifies this`jobs, book
      ensures Valid() && State() == old(Next(cfg, State(), On(id, ReapAttempts(now, duration, data))))
    {
      hide JobOk, Votable, MaybeFinalize, Settled, SettleTxs, Next;
      ghost var w, step := State(), On(id, ReapAttempts(now, duration, data));
      StepJobs(cfg, w, step);
      ReapAttemptsStep(cfg, w, id, step.action);
      var j := jobs[id];
      assert JobOk(cfg, j);
      if !InFlight(j.status) || j.redundancy <= 1 {
        return;
      }
      var attempts, found := MarkLost(j.attempts, now);
      if found {
        ReapVotable(cfg, j, now);
        j := j.(attempts := attempts);
        jobs := jobs[id := j];
        FinalizeIfDecided(id, duration, data);
        assert State() == Decided(cfg, w, id, MaybeFinalize(j), duration, data);
      }
    }

    /** One pass of the attempt reaper over every redundant job. */
    method ReapExpiredAttempts(now: int, bills: seq<(real, nat)>)
      requires Valid() && |bills| == |jobs|
      modifies this`jobs, book
      ensures Valid() && State() == old(Run(cfg, State(), AttemptSweep(now, bills, |jobs|)))
    {
      hide JobOk, Next;
      for i := 0 to |jobs|
        invariant Valid() && |jobs| == |bills|
        invariant State() == Run(cfg, old(State()), AttemptSweep(now, bills, i))
      {
        ghost var step := On(i, ReapAttempts(now, bills[i].0, bills[i].1));
        assert AttemptSweep(now, bills, i + 1) == AttemptSweep(now, bills, i) + [step];
        JobsLiveness.RunSnoc(cfg, old(State()), AttemptSweep(now, bills, i), step);
        ActionKeepsCount(cfg, State(), i, step.action);
        ReapJobAttempts(i, now, bills[i].0, bills[i].1);
      }
    }
  }

  lemma ActionKeepsCount(cfg: Config, w: World, id: nat, a: Action)
    ensures |Next(cfg, w, On(id, a)).jobs| == |w.jobs|
  {
    hide Act, Settled, SettleTxs;
  }

  /** Mark the stale attempts lost. */
  method MarkLost(before: seq<Attempt>, now: int) returns (attempts: seq<Attempt>, found: bool)
    ensures attempts == Expire(before, now)
    ensures found <==> exists a :: a in before && Stale(a, now)
  {
    attempts, found := before, false;
    for i := 0 to |before|
      invariant |attempts| == |before|
      invariant forall k :: 0 <= k < i ==> attempts[k] == Expire(before, now)[k]
      invariant forall k :: i <= k < |before| ==> attempts[k] == before[k]
      invariant found <==> exists k :: 0 <= k < i && Stale(before[k], now)
    {
      if Stale(attempts[i], now) {
        attempts, found := attempts[i := attempts[i].(fate := Lost, finished := true)], true;
      }
    }
  }

  lemma ReapVotable(cfg: Config, j: Job, now: int)
    requires cfg.Valid() && JobOk(cfg, j) && InFlight(j.status) && j.redundancy > 1
    ensures Votable(cfg, j.(attempts := Expire(j.attempts, now)))
  {
    hide Evaluate, Votes;
  }
}
