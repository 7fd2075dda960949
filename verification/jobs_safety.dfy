/** The invariant of one job, kept by every action, and that no action is ever illegal. */
module JobsSafety {
  import opened Common
  import opened Quorum
  import opened Jobs

  ghost predicate AttemptOk(a: Attempt) { a.finished <==> a.fate != Given && a.fate != Begun }

  ghost predicate DistinctProviders(attempts: seq<Attempt>) {
    forall i, k :: 0 <= i < k < |attempts| ==> attempts[i].provider != attempts[k].provider
  }

  /** A job run once at a time: one attempt per round, all but the last one lost. */
  ghost predicate SingleOk(j: Job) {
    && |j.attempts| == j.rounds
    && (forall i :: 0 <= i < |j.attempts| - 1 ==> j.attempts[i].fate == Lost)
    && (InFlight(j.status) ==> j.attempts != [] && !j.attempts[|j.attempts| - 1].finished)
    && (!InFlight(j.status) ==> forall i :: 0 <= i < |j.attempts| ==> j.attempts[i].finished)
  }

  /** A redundant job: one round of at most K attempts by different providers. */
  ghost predicate RedundantOk(j: Job) {
    && DistinctProviders(j.attempts) && |j.attempts| <= j.redundancy
    && (j.status == Queued ==> j.attempts == [] && j.rounds == 0)
    && (j.status != Queued ==> j.attempts != [] && j.rounds == 1)
    && (InFlight(j.status) ==> |Votes(j.attempts)| < j.redundancy)
  }

  /** How many status changes the job can still make. */
  function Rank(cfg: Config, j: Job): int {
    match j.status
    case Queued => 3 * (cfg.maxAttempts - j.rounds)
    case Assigned => 3 * (cfg.maxAttempts - j.rounds) + 2
    case Running => 3 * (cfg.maxAttempts - j.rounds) + 1
    case _ => 0
  }

  ghost predicate BudgetOk(cfg: Config, j: Job) {
    && j.rounds <= cfg.maxAttempts
    && (j.status == Queued ==> j.rounds < cfg.maxAttempts)
    && j.moves + Rank(cfg, j) <= 3 * cfg.maxAttempts
  }

  /** What the status says about the attempts and the lease. */
  ghost predicate StatusOk(j: Job) {
    && (InFlight(j.status) <==> j.lease.Some?)
    && (j.status == Assigned ==> forall i :: 0 <= i < |j.attempts| ==>
      j.attempts[i].fate == Given || j.attempts[i].fate == Lost)
    && (j.status == Queued ==> forall i :: 0 <= i < |j.attempts| ==> j.attempts[i].fate == Lost)
  }

  /** A completed job stores a proof of the hash its quorum chose. */
  ghost predicate ProofOk(j: Job) {
    j.status == Completed ==> j.proof.Some? && Evaluate(Votes(j.attempts), j.redundancy).winner == j.proof
  }

  ghost predicate JobOk(cfg: Config, j: Job) {
    && j.redundancy >= 1
    && (forall i :: 0 <= i < |j.attempts| ==> AttemptOk(j.attempts[i]))
    && (if j.redundancy == 1 then SingleOk(j) else RedundantOk(j))
    && BudgetOk(cfg, j) && StatusOk(j) && ProofOk(j)
  }

  // ---- votes -------------------------------------------------------------------------------

  lemma {:induction false} VotesAre(attempts: seq<Attempt>)
    ensures |Votes(attempts)| <= |attempts|
    ensures forall v :: v in Votes(attempts) <==>
      exists i :: 0 <= i < |attempts| && attempts[i].finished && VoteOf(attempts[i]) == v
  {
    if attempts != [] {
      var rest := attempts[1..];
      VotesAre(rest);
      forall v
        ensures v in Votes(attempts) <==>
          exists i :: 0 <= i < |attempts| && attempts[i].finished && VoteOf(attempts[i]) == v
      {
        if v in Votes(rest) {
          var i :| 0 <= i < |rest| && rest[i].finished && VoteOf(rest[i]) == v;
          assert attempts[i + 1] == rest[i];
        }
        if i :| 0 <= i < |attempts| && attempts[i].finished && VoteOf(attempts[i]) == v {
          if i > 0 { assert rest[i - 1] == attempts[i]; }
        }
      }
    }
  }

  lemma {:induction false} WinningFound(attempts: seq<Attempt>, agreers: seq<nat>, k: nat)
    requires k < |attempts| && attempts[k].finished && attempts[k].fate == Succeeded && attempts[k].provider in agreers
    ensures WinningAttempt(attempts, agreers) < |attempts|
  {
    if k > 0 { WinningFound(attempts[1..], agreers, k - 1); }
  }

  lemma {:induction false} AllVote(attempts: seq<Attempt>)
    requires |Votes(attempts)| == |attempts|
    ensures forall i :: 0 <= i < |attempts| ==> attempts[i].finished
  {
    if attempts != [] {
      VotesAre(attempts[1..]);
      AllVote(attempts[1..]);
      forall i | 0 <= i < |attempts| ensures attempts[i].finished {
        if i > 0 { assert attempts[i] == attempts[1..][i - 1]; }
      }
    }
  }

  /** Some attempt voted for the winning hash, and the attempt that settles the job carries it. */
  lemma WinnerCarriesHash(j: Job)
    requires j.redundancy == 1 ==> forall i :: 0 <= i < |j.attempts| - 1 ==> j.attempts[i].fate == Lost
    requires j.redundancy > 1 ==> DistinctProviders(j.attempts)
    requires j.redundancy >= 1
    ensures
      var o := Evaluate(Votes(j.attempts), j.redundancy);
      o.winner.Some? ==>
        && Winner(j).Some? && Winner(j).value in j.attempts && Winner(j).value.hash == o.winner
        && Winner(j).value.fate == Succeeded && Winner(j).value.provider in o.agreers
  {
    hide Evaluate, Votes, WinningAttempt;
    var votes := Votes(j.attempts);
    var o := Evaluate(votes, j.redundancy);
    VotesAre(j.attempts);
    Sides(votes, j.redundancy);
    if o.winner.Some? {
      var p := o.agreers[0];
      assert p in o.agreers;
      var v :| v in votes && v.provider == p && For(o.winner.value)(v);
      var k :| 0 <= k < |j.attempts| && j.attempts[k].finished && VoteOf(j.attempts[k]) == v;
      WinningFound(j.attempts, o.agreers, k);
      var i := WinningAttempt(j.attempts, o.agreers);
      var u :| u in votes && u.provider == j.attempts[i].provider && For(o.winner.value)(u);
      var m :| 0 <= m < |j.attempts| && j.attempts[m].finished && VoteOf(j.attempts[m]) == u;
      assert j.attempts[m].fate == Succeeded;
      assert m == i;
    }
  }

  // ---- finalization ------------------------------------------------------------------------------

  /** The state a job is in when its votes are counted. */
  ghost predicate Votable(cfg: Config, j: Job) {
    && cfg.Valid() && j.redundancy >= 1 && InFlight(j.status)
    && (forall i :: 0 <= i < |j.attempts| ==> AttemptOk(j.attempts[i]))
    && (j.redundancy == 1 ==> |j.attempts| == j.rounds && forall i :: 0 <= i < |j.attempts| - 1 ==>
      j.attempts[i].fate == Lost)
    && (j.redundancy > 1 ==> DistinctProviders(j.attempts) && 0 < |j.attempts| <= j.redundancy && j.rounds == 1)
    && BudgetOk(cfg, j) && StatusOk(j)
  }

  /** Only a running job can have a winning or a timed-out result, so finalizing is always legal. */
  lemma FinalizeOk(cfg: Config, j: Job)
    requires Votable(cfg, j) && |Votes(j.attempts)| >= j.redundancy
    requires forall i :: 0 <= i < |j.attempts| ==> j.attempts[i].finished
    ensures Finalize(j).Some? && Terminal(Finalize(j).value.status) && JobOk(cfg, Finalize(j).value)
    ensures Finalize(j).value.attempts == j.attempts && Finalize(j).value.costFinal == j.costFinal
    ensures Finalize(j).value.status == Completed <==> Winner(j).Some?
  {
    hide Evaluate, Votes, Winner;
    WinnerCarriesHash(j);
    NoWinner(j);
    assert j.status == Assigned ==> Winner(j).None?;
    VotesAre(j.attempts);
    assert j.attempts != [] && j.attempts[0].finished;
  }

  /** A job decided without a winner timed out exactly when every attempt overran; else it failed. */
  lemma TimesOutIff(cfg: Config, j: Job)
    requires Votable(cfg, j) && |Votes(j.attempts)| >= j.redundancy
    requires forall i :: 0 <= i < |j.attempts| ==> j.attempts[i].finished
    ensures Finalize(j).Some?
    ensures Finalize(j).value.status == TimedOut <==>
      Winner(j).None? && forall i :: 0 <= i < |j.attempts| ==> j.attempts[i].fate == Overran
  {
    hide Evaluate, Votes, Winner, JobOk;
    FinalizeOk(cfg, j);
    NoWinner(j);
    VotesAre(j.attempts);
    assert j.attempts != [] && j.attempts[0].finished;
  }

  lemma NoWinner(j: Job)
    ensures Winner(j).Some? ==> Evaluate(Votes(j.attempts), j.redundancy).winner.Some?
  {}

  lemma MaybeFinalizeOk(cfg: Config, j: Job)
    requires Votable(cfg, j)
    requires j.redundancy == 1 ==> forall i :: 0 <= i < |j.attempts| ==> j.attempts[i].finished
    requires j.redundancy == 1 ==> j.attempts != []
    ensures MaybeFinalize(j).Some? && JobOk(cfg, MaybeFinalize(j).value)
    ensures MaybeFinalize(j).value.attempts == j.attempts && MaybeFinalize(j).value.costFinal == j.costFinal
    ensures Terminal(MaybeFinalize(j).value.status) <==> |Votes(j.attempts)| >= j.redundancy
    ensures Terminal(MaybeFinalize(j).value.status) ==> MaybeFinalize(j) == Finalize(j)
  {
    hide Finalize, Evaluate;
    VotesAre(j.attempts);
    if j.redundancy == 1 {
      var v := VoteOf(j.attempts[0]);
      assert v in Votes(j.attempts);
    }
    if |Votes(j.attempts)| >= j.redundancy {
      if j.redundancy > 1 { AllVote(j.attempts); }
      FinalizeOk(cfg, j);
    }
  }

  // ---- the actions -----------------------------------------------------------------------------------

  /** What no action touches. */
  ghost predicate Same(j: Job, k: Job) {
    k.dev == j.dev && k.canary == j.canary && k.redundancy == j.redundancy && k.resources == j.resources
    && k.escrow == j.escrow && k.costFinal == j.costFinal && k.key == j.key
  }

  ghost predicate Kept(cfg: Config, j: Job, r: Option<Job>) {
    r.Some? && JobOk(cfg, r.value) && Same(j, r.value)
  }

  lemma AssignOk(cfg: Config, j: Job, candidates: Candidates, lease: int)
    requires cfg.Valid() && JobOk(cfg, j)
    ensures Kept(cfg, j, DoAssign(j, candidates, lease))
  {
    hide Evaluate, Votes, SingleOk, RedundantOk;
    var k := DoAssign(j, candidates, lease).value;
    var providers := Take(candidates, if j.highValue then j.redundancy else 1);
    if j.status == Queued && providers != [] {
      assert k.status == Assigned && k.attempts == j.attempts + NewAttempts(providers, lease);
      if j.redundancy == 1 {
        AssignSingle(j, k, providers, lease);
      } else {
        assert k.rounds == 1 by { QueuedFirst(j); }
        AssignRedundant(j, k, providers, lease);
      }
    }
  }

  lemma QueuedFirst(j: Job)
    requires RedundantOk(j) && j.status == Queued
    ensures j.rounds == 0
  {}

  lemma AssignSingle(j: Job, k: Job, providers: Candidates, lease: int)
    requires SingleOk(j) && StatusOk(j) && j.status == Queued && k.status == Assigned && k.rounds == j.rounds + 1
    requires |providers| == 1 && k.attempts == j.attempts + NewAttempts(providers, lease)
    ensures SingleOk(k)
  {}

  lemma AssignRedundant(j: Job, k: Job, providers: Candidates, lease: int)
    requires RedundantOk(j) && j.status == Queued && k.status == Assigned && k.rounds == 1
    requires k.redundancy == j.redundancy > 1
    requires 0 < |providers| <= j.redundancy && k.attempts == j.attempts + NewAttempts(providers, lease)
    ensures RedundantOk(k)
  {
    hide Votes;
    assert k.attempts == NewAttempts(providers, lease);
    NoVotes(k.attempts);
    assert DistinctProviders(k.attempts);
  }

  lemma {:induction false} NoVotes(attempts: seq<Attempt>)
    requires forall i :: 0 <= i < |attempts| ==> !attempts[i].finished
    ensures Votes(attempts) == []
  {
    if attempts != [] { NoVotes(attempts[1..]); }
  }

  /** The number of votes depends on nothing but which attempts are finished. */
  lemma {:induction false} SameVotes(a: seq<Attempt>, b: seq<Attempt>)
    requires |a| == |b| && forall i :: 0 <= i < |a| ==> a[i].finished == b[i].finished
    ensures |Votes(a)| == |Votes(b)|
  {
    if a != [] { SameVotes(a[1..], b[1..]); }
  }

  lemma HeartbeatOk(cfg: Config, j: Job, provider: nat, lease: int)
    requires JobOk(cfg, j)
    ensures Kept(cfg, j, Some(DoHeartbeat(j, provider, lease)))
  {
    hide Evaluate, Votes;
    SameVotes(j.attempts, DoHeartbeat(j, provider, lease).attempts);
  }

  lemma ReportOk(cfg: Config, j: Job, provider: nat)
    requires JobOk(cfg, j)
    ensures Kept(cfg, j, DoReport(j, provider))
  {
    hide Evaluate, Votes;
    var r := DoReport(j, provider);
    SameVotes(j.attempts, r.value.attempts);
  }

  lemma ResultVotable(cfg: Config, j: Job, i: nat, late: bool, valid: bool, hash: Option<nat>)
    requires cfg.Valid() && JobOk(cfg, j) && InFlight(j.status)
    requires i < |j.attempts| && !j.attempts[i].finished
    ensures Started(j).Some?
    ensures
      var a := j.attempts[i].(fate := Judged(late, valid), finished := true, hash := hash);
      var k := Started(j).value.(attempts := j.attempts[i := a]);
      Votable(cfg, k) && (j.redundancy == 1 ==> forall n :: 0 <= n < |k.attempts| ==> k.attempts[n].finished)
  {
    hide Evaluate, Votes;
    if j.redundancy == 1 { assert i == |j.attempts| - 1; }
  }

  lemma ResultOk(cfg: Config, j: Job, provider: nat, late: bool, valid: bool, hash: Option<nat>)
    requires cfg.Valid() && JobOk(cfg, j)
    ensures Kept(cfg, j, DoResult(j, provider, late, valid, hash))
  {
    hide MaybeFinalize, JobOk, Votable;
    if Owns(j, provider) {
      var i := FindAttempt(j.attempts, provider);
      var a := j.attempts[i].(fate := Judged(late, valid), finished := true, hash := hash);
      var k := Started(j).value.(attempts := j.attempts[i := a]);
      ResultVotable(cfg, j, i, late, valid, hash);
      MaybeFinalizeOk(cfg, k);
      FinalizeSame(k);
    }
  }

  lemma FinalizeSame(j: Job)
    ensures MaybeFinalize(j).Some? ==> Same(j, MaybeFinalize(j).value)
  {
    hide Evaluate, Votes, Winner, AllLate;
  }

  lemma ReclaimOk(cfg: Config, j: Job)
    requires cfg.Valid() && JobOk(cfg, j) && InFlight(j.status) && j.redundancy == 1
    ensures Kept(cfg, j, Reclaim(cfg, j))
    ensures Reclaim(cfg, j).value.status == if j.rounds >= cfg.maxAttempts then Failed else Queued
  {
    hide Evaluate, Votes;
  }

  lemma ReapAttemptsOk(cfg: Config, j: Job, now: int)
    requires cfg.Valid() && JobOk(cfg, j)
    ensures Kept(cfg, j, DoReapAttempts(j, now))
  {
    hide Evaluate, Votes, MaybeFinalize;
    if InFlight(j.status) && j.redundancy > 1 {
      var k := j.(attempts := Expire(j.attempts, now));
      assert Votable(cfg, k);
      MaybeFinalizeOk(cfg, k);
      FinalizeSame(k);
    }
  }

  /** Every action keeps the invariant, and none ever asks for a transition the machine forbids. */
  lemma ActOk(cfg: Config, j: Job, a: Action)
    requires cfg.Valid() && JobOk(cfg, j)
    ensures Kept(cfg, j, Act(cfg, j, a))
  {
    hide JobOk, DoAssign, DoHeartbeat, DoReport, DoResult, Reclaim, DoReapAttempts;
    match a {
      case Assign(candidates, lease) => AssignOk(cfg, j, candidates, lease);
      case Heartbeat(provider, lease) => HeartbeatOk(cfg, j, provider, lease);
      case Report(provider) => ReportOk(cfg, j, provider);
      case Result(provider, late, valid, hash, _, _) => ResultOk(cfg, j, provider, late, valid, hash);
      case Reap(now) => if Expired(j, now) { ReclaimOk(cfg, j); }
      case Drain(gone) => if Stranded(j, gone) { ReclaimOk(cfg, j); }
      case ReapAttempts(now, _, _) => ReapAttemptsOk(cfg, j, now);
    }
  }
}
