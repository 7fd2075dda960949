/** Which jobs can end, which cannot, and what a finished job can no longer do. */
module JobsLiveness {
  import opened Common
  import opened Ledger
  import opened Quorum
  import opened Jobs
  import opened JobsSafety
  import opened JobsTheorems

  // ---- progress ------------------------------------------------------------------------------

  lemma MaybeFinalizeRank(cfg: Config, j: Job)
    requires MaybeFinalize(j).Some? && InFlight(j.status) && Rank(cfg, j) >= 1
    ensures MaybeFinalize(j).value == j || Rank(cfg, MaybeFinalize(j).value) == 0
    ensures MaybeFinalize(j).value.status == j.status <==> MaybeFinalize(j).value == j
  {
    hide Evaluate, Votes, Winner, AllLate;
  }

  ghost predicate Falls(cfg: Config, j: Job, r: Option<Job>) {
    && r.Some?
    && (r.value.status != j.status ==> 0 <= Rank(cfg, r.value) < Rank(cfg, j))
    && (r.value.status == j.status ==> Rank(cfg, r.value) == Rank(cfg, j))
  }

  lemma ResultFalls(cfg: Config, j: Job, p: nat, late: bool, valid: bool, hash: Option<nat>)
    requires cfg.Valid() && JobOk(cfg, j)
    ensures Falls(cfg, j, DoResult(j, p, late, valid, hash))
  {
    hide MaybeFinalize, JobOk;
    ResultOk(cfg, j, p, late, valid, hash);
    RankAtLeast(cfg, j);
    if Owns(j, p) {
      var i := FindAttempt(j.attempts, p);
      var b := j.attempts[i].(fate := Judged(late, valid), finished := true, hash := hash);
      MaybeFinalizeRank(cfg, Started(j).value.(attempts := j.attempts[i := b]));
    }
  }

  lemma ReapFalls(cfg: Config, j: Job, now: int)
    requires cfg.Valid() && JobOk(cfg, j)
    ensures Falls(cfg, j, DoReapAttempts(j, now))
  {
    hide MaybeFinalize, JobOk;
    ReapAttemptsOk(cfg, j, now);
    RankAtLeast(cfg, j);
    if InFlight(j.status) && j.redundancy > 1 && (exists a :: a in j.attempts && Stale(a, now)) {
      MaybeFinalizeRank(cfg, j.(attempts := Expire(j.attempts, now)));
    }
  }

  lemma ReclaimFalls(cfg: Config, j: Job)
    requires cfg.Valid() && JobOk(cfg, j) && InFlight(j.status) && j.redundancy == 1
    ensures Falls(cfg, j, Reclaim(cfg, j))
  {
    hide JobOk;
    ReclaimOk(cfg, j);
    RankAtLeast(cfg, j);
  }

  lemma AssignFalls(cfg: Config, j: Job, candidates: Candidates, lease: int)
    requires cfg.Valid() && JobOk(cfg, j)
    ensures Falls(cfg, j, DoAssign(j, candidates, lease))
  {
    hide JobOk;
    AssignOk(cfg, j, candidates, lease);
    RankAtLeast(cfg, j);
    RankAtLeast(cfg, DoAssign(j, candidates, lease).value);
  }

  lemma ReportFalls(cfg: Config, j: Job, p: nat, lease: int)
    requires cfg.Valid() && JobOk(cfg, j)
    ensures Falls(cfg, j, DoReport(j, p)) && Falls(cfg, j, Some(DoHeartbeat(j, p, lease)))
  {
    hide JobOk;
    RankAtLeast(cfg, j);
  }

  /** Whenever an action changes a job's status, the measure of what it can still do falls. */
  lemma RankFalls(cfg: Config, j: Job, a: Action)
    requires cfg.Valid() && JobOk(cfg, j)
    ensures Falls(cfg, j, Act(cfg, j, a))
  {
    hide JobOk, DoAssign, DoHeartbeat, DoReport, DoResult, Reclaim, DoReapAttempts;
    match a {
      case Assign(candidates, lease) => AssignFalls(cfg, j, candidates, lease);
      case Heartbeat(provider, lease) => ReportFalls(cfg, j, provider, lease);
      case Report(provider) => ReportFalls(cfg, j, provider, 0);
      case Result(provider, late, valid, hash, _, _) => ResultFalls(cfg, j, provider, late, valid, hash);
      case Reap(now) => if Expired(j, now) { ReclaimFalls(cfg, j); }
      case Drain(gone) => if Stranded(j, gone) { ReclaimFalls(cfg, j); }
      case ReapAttempts(now, _, _) => ReapFalls(cfg, j, now);
    }
  }

  lemma RankAtLeast(cfg: Config, j: Job)
    requires cfg.Valid() && JobOk(cfg, j)
    ensures Rank(cfg, j) >= if Terminal(j.status) then 0 else 1
    ensures j.rounds <= cfg.maxAttempts
  {
    hide Evaluate, Votes;
  }

  // ---- a finished job is final ------------------------------------------------------------------

  lemma TerminalStays(cfg: Config, j: Job, a: Action)
    requires Terminal(j.status)
    ensures Act(cfg, j, a) == Some(j)
  {
    hide Evaluate, Votes, MaybeFinalize;
  }

  /** A terminal job never changes again, in any run: it is finalized, settled or failed once. */
  lemma {:induction false} TerminalFrozen(cfg: Config, w: World, steps: seq<Step>, id: nat)
    requires id < |w.jobs| && Terminal(w.jobs[id].status)
    ensures id < |Run(cfg, w, steps).jobs| && Run(cfg, w, steps).jobs[id] == w.jobs[id]
    decreases |steps|
  {
    hide Act, Settled, SettleTxs, ComputeCost, Known, HoldTxs;
    if steps != [] {
      if steps[0].On? { TerminalStays(cfg, w.jobs[id], steps[0].action); }
      TerminalFrozen(cfg, Next(cfg, w, steps[0]), steps[1..], id);
    }
  }

  // ---- redundant jobs --------------------------------------------------------------------------------

  /** In flight with fewer attempts than the votes it needs. */
  ghost predicate Short(j: Job) {
    InFlight(j.status) && j.redundancy > 1 && |j.attempts| < j.redundancy
  }

  lemma ShortStays(cfg: Config, j: Job, a: Action)
    requires Short(j)
    ensures Act(cfg, j, a).Some? && Short(Act(cfg, j, a).value)
  {
    hide Evaluate, Votes;
    match a {
      case Result(p, late, valid, hash, _, _) =>
        if Owns(j, p) {
          var i := FindAttempt(j.attempts, p);
          VotesAre(j.attempts[i := j.attempts[i].(fate := Judged(late, valid), finished := true, hash := hash)]);
        }
      case ReapAttempts(now, _, _) => VotesAre(Expire(j.attempts, now));
      case _ =>
    }
  }

  lemma {:induction false} ShortForever(cfg: Config, w: World, steps: seq<Step>, id: nat)
    requires id < |w.jobs| && Short(w.jobs[id])
    ensures id < |Run(cfg, w, steps).jobs| && Short(Run(cfg, w, steps).jobs[id])
    decreases |steps|
  {
    hide Act, Settled, SettleTxs, ComputeCost, Known, HoldTxs;
    if steps != [] {
      if steps[0].On? && steps[0].job == id { ShortStays(cfg, w.jobs[id], steps[0].action); }
      ShortForever(cfg, Next(cfg, w, steps[0]), steps[1..], id);
    }
  }

  function Later(attempts: seq<Attempt>): int {
    if attempts == [] then 0 else Max(attempts[0].lease + 1, Later(attempts[1..]))
  }

  lemma {:induction false} LaterIs(attempts: seq<Attempt>)
    ensures forall i :: 0 <= i < |attempts| ==> attempts[i].lease < Later(attempts)
  {
    if attempts != [] {
      LaterIs(attempts[1..]);
      forall i | 0 <= i < |attempts| ensures attempts[i].lease < Later(attempts) {
        if i > 0 { assert attempts[i] == attempts[1..][i - 1]; }
      }
    }
  }

  /** With all its attempts given out, one pass of the reaper after the last lease ends the job. */
  lemma FullEnds(cfg: Config, j: Job)
    requires cfg.Valid() && JobOk(cfg, j) && InFlight(j.status) && j.redundancy > 1 && |j.attempts| >= j.redundancy
    ensures Act(cfg, j, ReapAttempts(Later(j.attempts), 0.0, 0)).Some?
    ensures Terminal(Act(cfg, j, ReapAttempts(Later(j.attempts), 0.0, 0)).value.status)
  {
    hide Evaluate, Votes, MaybeFinalize, Later;
    var now := Later(j.attempts);
    LaterIs(j.attempts);
    var k := j.(attempts := Expire(j.attempts, now));
    AllFinished(k.attempts);
    if forall i :: 0 <= i < |j.attempts| ==> j.attempts[i].finished {
      AllFinished(j.attempts);
      assert false;
    }
    var i :| 0 <= i < |j.attempts| && !j.attempts[i].finished;
    assert j.attempts[i] in j.attempts && Stale(j.attempts[i], now);
    MaybeFinalizeOk(cfg, k);
  }

  lemma {:induction false} RunSnoc(cfg: Config, w: World, steps: seq<Step>, s: Step)
    ensures Run(cfg, w, steps + [s]) == Next(cfg, Run(cfg, w, steps), s)
    decreases |steps|
  {
    hide Next;
    if steps == [] {
      assert [] + [s] == [s] && [s][1..] == [];
      assert Run(cfg, Next(cfg, w, s), []) == Next(cfg, w, s);
    } else {
      assert (steps + [s])[0] == steps[0] && (steps + [s])[1..] == steps[1..] + [s];
      RunSnoc(cfg, Next(cfg, w, steps[0]), steps[1..], s);
    }
  }

  lemma RunNothing(cfg: Config, w: World)
    ensures Run(cfg, w, []) == w
  {}

  /** A redundant job in flight can still end exactly when it was given all the attempts it needs. */
  lemma RedundantEndsIff(cfg: Config, w: World, id: nat)
    requires cfg.Valid() && AllOk(cfg, w) && id < |w.jobs|
    requires InFlight(w.jobs[id].status) && w.jobs[id].redundancy > 1
    ensures |w.jobs[id].attempts| >= w.jobs[id].redundancy <==>
      exists steps :: id < |Run(cfg, w, steps).jobs| && Terminal(Run(cfg, w, steps).jobs[id].status)
  {
    hide Act, JobOk, Settled, SettleTxs, ComputeCost, Known, HoldTxs;
    var j := w.jobs[id];
    if |j.attempts| >= j.redundancy {
      var step := On(id, ReapAttempts(Later(j.attempts), 0.0, 0));
      FullEnds(cfg, j);
      SettledKeeps(cfg, Act(cfg, j, step.action).value, 0.0, 0);
      var w1 := Next(cfg, w, step);
      assert id < |w1.jobs| && Terminal(w1.jobs[id].status);
      RunSnoc(cfg, w, [], step);
      assert Run(cfg, w, [] + [step]) == w1;
    } else {
      forall steps | id < |Run(cfg, w, steps).jobs| ensures !Terminal(Run(cfg, w, steps).jobs[id].status) {
        ShortForever(cfg, w, steps, id);
      }
    }
  }

  /**
   A job run singly ends on its provider's first result: completed on a valid one with an
   output hash, timed out on a late one only in its first round, failed otherwise.
   */
  lemma SingleEnds(cfg: Config, j: Job, late: bool, valid: bool, hash: Option<nat>)
    requires cfg.Valid() && JobOk(cfg, j) && InFlight(j.status) && j.redundancy == 1
    ensures
      var r := DoResult(j, j.attempts[|j.attempts| - 1].provider, late, valid, hash);
      && r.Some? && Terminal(r.value.status)
      && (r.value.status == Completed <==> !late && valid && hash.Some?)
      && (r.value.status == TimedOut <==> late && j.rounds == 1)
      && (r.value.status == Completed ==> r.value.proof == hash)
  {
    hide Votable, JobOk, Votes, Finalize;
    LastUnfinished(cfg, j);
    var n := |j.attempts| - 1;
    var p := j.attempts[n].provider;
    assert FindAttempt(j.attempts, p) == n;
    var a := j.attempts[n].(fate := Judged(late, valid), finished := true, hash := hash);
    var k := Started(j).value.(attempts := j.attempts[n := a]);
    ResultVotable(cfg, j, n, late, valid, hash);
    MaybeFinalizeOk(cfg, k);
    VotesAre(k.attempts);
    assert VoteOf(k.attempts[0]) in Votes(k.attempts);
    SingleDecision(cfg, k);
  }

  lemma LastUnfinished(cfg: Config, j: Job)
    requires JobOk(cfg, j) && InFlight(j.status) && j.redundancy == 1
    ensures j.attempts != [] && !j.attempts[|j.attempts| - 1].finished && |j.attempts| == j.rounds
  {
    hide Evaluate, Votes;
  }

  lemma SingleDecision(cfg: Config, k: Job)
    requires Votable(cfg, k) && k.redundancy == 1 && k.attempts != [] && k.status == Running
    requires forall i :: 0 <= i < |k.attempts| ==> k.attempts[i].finished
    ensures
      var last, f := k.attempts[|k.attempts| - 1], Finalize(k);
      && f.Some?
      && (f.value.status == Completed <==> last.fate == Succeeded && last.hash.Some?)
      && (f.value.status == TimedOut <==> last.fate == Overran && |k.attempts| == 1)
      && (f.value.status == Completed ==> f.value.proof == last.hash)
  {
    hide Evaluate, Votes, Winner;
    var n := |k.attempts| - 1;
    var last := k.attempts[n];
    var votes := Votes(k.attempts);
    VotesAre(k.attempts);
    assert VoteOf(last) in votes;
    FinalizeOk(cfg, k) by { assert VoteOf(k.attempts[0]) in votes; }
    WinnerCarriesHash(k);
    NoWinner(k);
    WinnerIff(votes, 1);
    assert n > 0 ==> k.attempts[0].fate == Lost;
    if last.fate == Succeeded && last.hash.Some? {
      var h := last.hash.value;
      PickIs(votes, For(h));
      assert VoteOf(last) in Pick(votes, For(h));
      assert Majority(votes, 1, h);
    }
  }

  /** Three votes wanted, two providers found: submitted, assigned, and never over. */
  lemma ShortReachable(cfg: Config, r: Resources, more: seq<Step>)
    requires cfg.Valid()
    ensures
      var start := [Submit(0, true, 3, r, 60, None, None), On(0, Assign([7, 8], 10))];
      var w := Run(cfg, Run(cfg, EMPTY, start), more);
      |w.jobs| >= 1 && Short(w.jobs[0]) && !Terminal(w.jobs[0].status)
  {
    hide Run, ComputeCost, HoldTxs;
    var a, b := Submit(0, true, 3, r, 60, None, None), On(0, Assign([7, 8], 10));
    var w1 := Next(cfg, EMPTY, a);
    assert w1.jobs == [Submitted(cfg, a)];
    var w2 := Next(cfg, w1, b);
    assert |w2.jobs| == 1 && w2.jobs[0].attempts == NewAttempts([7, 8], 10) && w2.jobs[0].status == Assigned;
    RunNothing(cfg, EMPTY);
    RunSnoc(cfg, EMPTY, [], a);
    RunSnoc(cfg, EMPTY, [a], b);
    assert [] + [a] == [a] && [a] + [b] == [a, b];
    ShortForever(cfg, w2, more, 0);
  }
}
