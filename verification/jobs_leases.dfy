/** Leases and reports, said of the stored values: who keeps a job, until when, and what each call records. */
module JobsLeases {
  import opened Common
  import opened Ledger
  import opened Quorum
  import opened Jobs
  import opened JobsSafety
  import opened JobsTheorems

  /** The provider has an unfinished attempt of a job in flight. */
  ghost predicate Works(j: Job, p: nat) {
    (j.status == Assigned || j.status == Running) && exists i :: Holds(j, p, i)
  }

  ghost predicate Holds(j: Job, p: nat, i: nat) {
    i < |j.attempts| && j.attempts[i].provider == p && !j.attempts[i].finished
  }

  /** A provider has one unfinished attempt of a job at most, and it is the one the handlers find. */
  lemma HeldOnce(cfg: Config, j: Job, p: nat, i: nat)
    requires JobOk(cfg, j) && InFlight(j.status) && Holds(j, p, i)
    ensures FindAttempt(j.attempts, p) == i
    ensures Owns(j, p)
  {
    hide Votes, Evaluate;
    var k := FindAttempt(j.attempts, p);
    assert i <= k < |j.attempts|;
  }

  lemma OwnsIff(cfg: Config, j: Job, p: nat)
    requires JobOk(cfg, j)
    ensures Owns(j, p) <==> Works(j, p)
  {
    hide Votes, Evaluate, JobOk;
    var k := FindAttempt(j.attempts, p);
    if k < |j.attempts| { assert Holds(j, p, k); }
  }

  // ---- heartbeats ---------------------------------------------------------------------------------

  /** A heartbeat renews the job's lease and the provider's own, and changes nothing else. */
  lemma Renews(cfg: Config, j: Job, p: nat, i: nat, lease: int)
    requires JobOk(cfg, j) && InFlight(j.status) && Holds(j, p, i)
    ensures DoHeartbeat(j, p, lease) ==
      j.(lease := Some(lease), attempts := j.attempts[i := j.attempts[i].(lease := lease)])
  {
    HeldOnce(cfg, j, p, i);
  }

  /** What the reapers do to a job in flight until its lease runs out, and after. */
  ghost predicate Guarded(cfg: Config, w: World, id: nat, lease: int)
    requires id < |w.jobs|
  {
    var j := w.jobs[id];
    && (forall now :: now <= lease ==> Next(cfg, w, On(id, Reap(now))) == w)
    && (forall now :: now > lease && j.redundancy == 1 ==>
      var w' := Next(cfg, w, On(id, Reap(now)));
      && w'.ledger == w.ledger && |w'.jobs| == |w.jobs|
      && w'.jobs[id].status == if j.rounds < cfg.maxAttempts then Queued else Failed)
  }

  lemma LeaseGuards(cfg: Config, w: World, id: nat, lease: int)
    requires cfg.Valid() && AllOk(cfg, w) && id < |w.jobs|
    requires InFlight(w.jobs[id].status) && w.jobs[id].lease == Some(lease)
    ensures Guarded(cfg, w, id, lease)
  {
    hide JobOk, Votes, Evaluate;
    var j := w.jobs[id];
    assert w.jobs[id := j] == w.jobs;
  }

  /** Until its own lease runs out the attempt stays open; after, it is lost. */
  ghost predicate AttemptGuarded(cfg: Config, w: World, id: nat, i: nat, lease: int)
    requires id < |w.jobs| && i < |w.jobs[id].attempts|
  {
    forall now, duration, data ::
      var w' := Next(cfg, w, On(id, ReapAttempts(now, duration, data)));
      && |w'.jobs| == |w.jobs| && i < |w'.jobs[id].attempts|
      && w'.jobs[id].attempts[i] ==
        if now <= lease then w.jobs[id].attempts[i] else w.jobs[id].attempts[i].(finished := true, fate := Lost)
  }

  lemma AttemptLease(cfg: Config, w: World, id: nat, i: nat)
    requires cfg.Valid() && AllOk(cfg, w) && id < |w.jobs| && i < |w.jobs[id].attempts|
    requires InFlight(w.jobs[id].status) && w.jobs[id].redundancy > 1 && !w.jobs[id].attempts[i].finished
    ensures AttemptGuarded(cfg, w, id, i, w.jobs[id].attempts[i].lease)
  {
    hide Votes, Evaluate, MaybeFinalize, SettleTxs;
    var j := w.jobs[id];
    forall now, duration, data
      ensures
        var w' := Next(cfg, w, On(id, ReapAttempts(now, duration, data)));
        && |w'.jobs| == |w.jobs| && i < |w'.jobs[id].attempts|
        && w'.jobs[id].attempts[i] ==
          if now <= j.attempts[i].lease then j.attempts[i] else j.attempts[i].(finished := true, fate := Lost)
    {
      assert j.attempts[i] in j.attempts;
      if exists a :: a in j.attempts && Stale(a, now) { ExpireKeeps(cfg, j, now); }
    }
  }

  /** Deciding a job after its stale attempts were marked changes no attempt further. */
  lemma ExpireKeeps(cfg: Config, j: Job, now: int)
    requires cfg.Valid() && JobOk(cfg, j) && InFlight(j.status) && j.redundancy > 1
    ensures
      var r := DoReapAttempts(j, now);
      && r.Some? && |r.value.attempts| == |j.attempts|
      && forall i :: 0 <= i < |j.attempts| ==> r.value.attempts[i] == Expire(j.attempts, now)[i]
  {
    hide Votes, Finalize, JobOk;
    ReapAttemptsOk(cfg, j, now);
    FinalizeEnds(j.(attempts := Expire(j.attempts, now)));
  }

  /**
   In every reachable state: a heartbeat of a provider at work keeps the job from the lease
   reaper for as long as it says, and no longer; of a redundant job it keeps the provider's own
   attempt. Nothing else of the job changes, and nobody else's heartbeat changes anything.
   */
  lemma HeartbeatKeeps(cfg: Config, steps: seq<Step>, id: nat, p: nat, lease: int)
    requires cfg.Valid() && id < |Run(cfg, EMPTY, steps).jobs|
    ensures
      var w := Run(cfg, EMPTY, steps);
      var j, w' := w.jobs[id], Next(cfg, w, On(id, Heartbeat(p, lease)));
      && (!Works(j, p) ==> w' == w)
      && (forall i: nat :: InFlight(j.status) && Holds(j, p, i) ==>
        var a := j.attempts[i].(lease := lease);
        && w' == w.(jobs := w.jobs[id := j.(lease := Some(lease), attempts := j.attempts[i := a])])
        && Guarded(cfg, w', id, lease)
        && (j.redundancy > 1 ==> AttemptGuarded(cfg, w', id, i, lease)))
  {
    hide Run, JobOk, Guarded, AttemptGuarded, Works, Owns, FindAttempt;
    RunJobs(cfg, EMPTY, steps);
    var w := Run(cfg, EMPTY, steps);
    var j, s := w.jobs[id], On(id, Heartbeat(p, lease));
    OwnsIff(cfg, j, p);
    assert w.jobs[id := j] == w.jobs;
    StepJobs(cfg, w, s);
    forall i: nat | InFlight(j.status) && Holds(j, p, i)
      ensures
        var w', a := Next(cfg, w, s), j.attempts[i].(lease := lease);
        && w' == w.(jobs := w.jobs[id := j.(lease := Some(lease), attempts := j.attempts[i := a])])
        && Guarded(cfg, w', id, lease)
        && (j.redundancy > 1 ==> AttemptGuarded(cfg, w', id, i, lease))
    {
      Renews(cfg, j, p, i, lease);
      var w' := Next(cfg, w, s);
      LeaseGuards(cfg, w', id, lease);
      if j.redundancy > 1 { AttemptLease(cfg, w', id, i); }
    }
  }

  // ---- the other calls --------------------------------------------------------------------------------

  /** An assignment takes the first candidates, as many as the job runs at once, all under the lease given. */
  lemma AssignGrants(cfg: Config, steps: seq<Step>, id: nat, candidates: Candidates, lease: int)
    requires cfg.Valid() && id < |Run(cfg, EMPTY, steps).jobs|
    ensures
      var w := Run(cfg, EMPTY, steps);
      var j, w' := w.jobs[id], Next(cfg, w, On(id, Assign(candidates, lease)));
      var n := if j.highValue && j.redundancy < |candidates| then j.redundancy
               else if !j.highValue && 1 < |candidates| then 1 else |candidates|;
      if j.status != Queued || candidates == [] then w' == w
      else
        var k := w'.jobs[id];
        && w' == w.(jobs := w.jobs[id := k])
        && k == j.(status := Assigned, moves := j.moves + 1, provider := Some(candidates[0]), lease := Some(lease),
                   rounds := j.rounds + 1, attempts := k.attempts)
        && |k.attempts| == |j.attempts| + n && k.attempts[..|j.attempts|] == j.attempts
        && (forall i :: 0 <= i < n ==>
          k.attempts[|j.attempts| + i] == Attempt(candidates[i], Given, false, lease, None))
        && Guarded(cfg, w', id, lease)
  {
    hide Run, Guarded, JobOk, DoAssign;
    RunJobs(cfg, EMPTY, steps);
    var w := Run(cfg, EMPTY, steps);
    var j, s := w.jobs[id], On(id, Assign(candidates, lease));
    assert w.jobs[id := j] == w.jobs;
    assert j.redundancy >= 1 by { Redundancy(cfg, j); }
    Grants(j, candidates, lease);
    if j.status == Queued && candidates != [] {
      StepJobs(cfg, w, s);
      LeaseGuards(cfg, Next(cfg, w, s), id, lease);
    }
  }

  lemma Redundancy(cfg: Config, j: Job)
    requires JobOk(cfg, j)
    ensures j.redundancy >= 1
  {}

  lemma Grants(j: Job, candidates: Candidates, lease: int)
    requires j.redundancy >= 1
    ensures
      var n := if j.highValue && j.redundancy < |candidates| then j.redundancy
               else if !j.highValue && 1 < |candidates| then 1 else |candidates|;
      var r := DoAssign(j, candidates, lease);
      && r.Some?
      && if j.status != Queued || candidates == [] then r.value == j
         else
           var k := r.value;
           && k == j.(status := Assigned, moves := j.moves + 1, provider := Some(candidates[0]), lease := Some(lease),
                      rounds := j.rounds + 1, attempts := k.attempts)
           && |k.attempts| == |j.attempts| + n && k.attempts[..|j.attempts|] == j.attempts
           && forall i :: 0 <= i < n ==>
             k.attempts[|j.attempts| + i] == Attempt(candidates[i], Given, false, lease, None)
  {
    if j.status == Queued && candidates != [] {
      var k, n := DoAssign(j, candidates, lease).value.attempts, |j.attempts|;
      var providers := Take(candidates, if j.highValue then j.redundancy else 1);
      assert k == j.attempts + NewAttempts(providers, lease);
    }
  }

  /** A report moves the job to running and the provider's attempt to begun, and nothing else. */
  lemma ReportBegins(cfg: Config, steps: seq<Step>, id: nat, p: nat)
    requires cfg.Valid() && id < |Run(cfg, EMPTY, steps).jobs|
    ensures
      var w := Run(cfg, EMPTY, steps);
      var j, w' := w.jobs[id], Next(cfg, w, On(id, Report(p)));
      && (!Works(j, p) ==> w' == w)
      && (forall i: nat :: InFlight(j.status) && Holds(j, p, i) ==>
        var moves := if j.status == Assigned then j.moves + 1 else j.moves;
        var a := j.attempts[i].(fate := Begun);
        w' == w.(jobs := w.jobs[id := j.(status := Running, moves := moves, attempts := j.attempts[i := a])]))
  {
    hide Run, JobOk, Works, FindAttempt;
    RunJobs(cfg, EMPTY, steps);
    var w := Run(cfg, EMPTY, steps);
    var j := w.jobs[id];
    OwnsIff(cfg, j, p);
    assert w.jobs[id := j] == w.jobs;
    forall i: nat | InFlight(j.status) && Holds(j, p, i) ensures FindAttempt(j.attempts, p) == i && Owns(j, p) {
      HeldOnce(cfg, j, p, i);
    }
  }

  /**
   A result closes the provider's attempt with what it reported: late, valid or failed, and its
   hash. The job runs on until as many attempts are finished as it needs votes.
   */
  lemma ResultRecorded(cfg: Config, steps: seq<Step>, id: nat, a: Action)
    requires cfg.Valid() && id < |Run(cfg, EMPTY, steps).jobs| && a.Result?
    ensures
      var w := Run(cfg, EMPTY, steps);
      var j, w' := w.jobs[id], Next(cfg, w, On(id, a));
      && (!Works(j, a.provider) ==> w' == w)
      && (forall i: nat :: InFlight(j.status) && Holds(j, a.provider, i) ==>
        var fate := if a.late then Overran else if a.valid then Succeeded else Errored;
        var closed := j.attempts[i].(fate := fate, finished := true, hash := a.hash);
        && id < |w'.jobs| && w'.jobs[id].attempts == j.attempts[i := closed]
        && (Terminal(w'.jobs[id].status) <==> Finished(j.attempts[i := closed]) >= j.redundancy)
        && (!Terminal(w'.jobs[id].status) ==> w'.jobs[id].status == Running && w'.ledger == w.ledger))
  {
    hide Run, JobOk, Works, FindAttempt, DoResult, SettleTxs, ComputeCost;
    RunJobs(cfg, EMPTY, steps);
    var w := Run(cfg, EMPTY, steps);
    var j := w.jobs[id];
    OwnsIff(cfg, j, a.provider);
    NotOwned(j, a);
    assert w.jobs[id := j] == w.jobs;
    forall i: nat | InFlight(j.status) && Holds(j, a.provider, i)
      ensures
        var fate := if a.late then Overran else if a.valid then Succeeded else Errored;
        var closed := j.attempts[i].(fate := fate, finished := true, hash := a.hash);
        var r := DoResult(j, a.provider, a.late, a.valid, a.hash);
        && r.Some? && r.value.attempts == j.attempts[i := closed]
        && (Terminal(r.value.status) <==> Finished(j.attempts[i := closed]) >= j.redundancy)
        && (!Terminal(r.value.status) ==> r.value.status == Running)
    {
      Closes(cfg, j, a, i);
    }
  }

  function Finished(attempts: seq<Attempt>): nat {
    if attempts == [] then 0 else (if attempts[0].finished then 1 else 0) + Finished(attempts[1..])
  }

  lemma {:induction false} FinishedVotes(attempts: seq<Attempt>)
    ensures |Votes(attempts)| == Finished(attempts)
  {
    if attempts != [] { FinishedVotes(attempts[1..]); }
  }

  lemma NotOwned(j: Job, a: Action)
    requires a.Result?
    ensures !Owns(j, a.provider) ==> DoResult(j, a.provider, a.late, a.valid, a.hash) == Some(j)
  {}

  lemma Closes(cfg: Config, j: Job, a: Action, i: nat)
    requires cfg.Valid() && JobOk(cfg, j) && a.Result? && InFlight(j.status) && Holds(j, a.provider, i)
    ensures
      var fate := if a.late then Overran else if a.valid then Succeeded else Errored;
      var closed := j.attempts[i].(fate := fate, finished := true, hash := a.hash);
      var r := DoResult(j, a.provider, a.late, a.valid, a.hash);
      && r.Some? && r.value.attempts == j.attempts[i := closed]
      && (Terminal(r.value.status) <==> Finished(j.attempts[i := closed]) >= j.redundancy)
      && (!Terminal(r.value.status) ==> r.value.status == Running)
  {
    hide Votes, Finalize, JobOk, FindAttempt, Finished;
    HeldOnce(cfg, j, a.provider, i);
    ResultOk(cfg, j, a.provider, a.late, a.valid, a.hash);
    var closed := j.attempts[i].(fate := Judged(a.late, a.valid), finished := true, hash := a.hash);
    FinishedVotes(j.attempts[i := closed]);
    FinalizeEnds(Started(j).value.(attempts := j.attempts[i := closed]));
  }

  /** Whatever finalizing does to a job in flight, it keeps the attempts and ends it. */
  lemma FinalizeEnds(j: Job)
    ensures
      var r := Finalize(j);
      r.Some? ==> Terminal(r.value.status) && r.value.attempts == j.attempts
  {
    hide Votes, Evaluate;
  }

  /** The lease reaper takes exactly the single jobs in flight whose lease has passed. */
  lemma ReapsIff(cfg: Config, steps: seq<Step>, id: nat, now: int)
    requires cfg.Valid() && id < |Run(cfg, EMPTY, steps).jobs|
    ensures
      var w := Run(cfg, EMPTY, steps);
      var j := w.jobs[id];
      Next(cfg, w, On(id, Reap(now))) != w <==>
        (j.status == Assigned || j.status == Running) && j.redundancy == 1 && j.lease.Some? && j.lease.value < now
  {
    hide Run, JobOk;
    RunJobs(cfg, EMPTY, steps);
    var w := Run(cfg, EMPTY, steps);
    assert w.jobs[id := w.jobs[id]] == w.jobs;
  }

  /** The connection reaper takes exactly the single jobs in flight of the providers gone silent. */
  lemma DrainsIff(cfg: Config, steps: seq<Step>, id: nat, gone: set<nat>)
    requires cfg.Valid() && id < |Run(cfg, EMPTY, steps).jobs|
    ensures
      var w := Run(cfg, EMPTY, steps);
      var j := w.jobs[id];
      Next(cfg, w, On(id, Drain(gone))) != w <==>
        (j.status == Assigned || j.status == Running) && j.redundancy == 1 && j.provider.Some? &&
          j.provider.value in gone
  {
    hide Run, JobOk;
    RunJobs(cfg, EMPTY, steps);
    var w := Run(cfg, EMPTY, steps);
    assert w.jobs[id := w.jobs[id]] == w.jobs;
  }

  /** A reclaimed job: its last attempt is closed, and it is queued for another round or failed for good. */
  lemma ReclaimIs(cfg: Config, j: Job)
    requires cfg.Valid() && JobOk(cfg, j) && InFlight(j.status) && j.redundancy == 1
    ensures
      var n, r := |j.attempts|, Reclaim(cfg, j);
      && n > 0 && r.Some?
      && r.value == j.(
        status := if j.rounds < cfg.maxAttempts then Queued else Failed, moves := j.moves + 1, lease := None,
        provider := if j.rounds < cfg.maxAttempts then None else j.provider,
        attempts := j.attempts[n - 1 := j.attempts[n - 1].(
          finished := true, fate := if j.rounds < cfg.maxAttempts then Lost else Errored)])
  {
    hide Votes, Evaluate;
  }

  /**
   A submission is refused exactly for a key its developer used before, or when settlement is
   on-chain and what is available does not cover the price of the whole timeout; else the job is
   queued as asked for, with exactly that price moved into escrow.
   */
  lemma SubmitsIff(cfg: Config, w: World, s: Step, d: nat)
    requires cfg.Valid() && s.Submit?
    ensures
      var w', price := Next(cfg, w, s), ComputeCost(cfg, s.resources, s.timeout as real);
      var repeat := s.key.Some? && exists i :: 0 <= i < |w.jobs| && w.jobs[i].dev == s.dev && w.jobs[i].key == s.key;
      if repeat || (s.available.Some? && s.available.value < price) then w' == w
      else
        && |w'.jobs| == |w.jobs| + 1 && w'.jobs[..|w.jobs|] == w.jobs
        && (var j := w'.jobs[|w.jobs|];
          && j.dev == s.dev && !j.canary && j.highValue == s.highValue && j.resources == s.resources && j.key == s.key
          && j.redundancy == (if s.redundancy > 1 then s.redundancy else 1) && j.escrow == Some(price)
          && j.status == Queued && j.attempts == [] && j.rounds == 0 && j.costFinal.None? && j.proof.None?)
        && Balance(w'.ledger, Developer, d) == Balance(w.ledger, Developer, d) - (if d == s.dev then price else 0)
        && Balance(w'.ledger, Escrow, d) == Balance(w.ledger, Escrow, d) + (if d == s.dev then price else 0)
  {
    hide ComputeCost, Balance, Moved;
    var price := ComputeCost(cfg, s.resources, s.timeout as real);
    KnownIs(w.jobs, s.dev, s.key);
    if price > 0 {
      var t := HoldTxs(|w.jobs|, s.dev, price)[0];
      TransferMoves(t, EscrowHold, Some(|w.jobs|), Developer, Some(s.dev), Escrow, Some(s.dev), price, Developer, d);
      TransferMoves(t, EscrowHold, Some(|w.jobs|), Developer, Some(s.dev), Escrow, Some(s.dev), price, Escrow, d);
      BalanceAppend(w.ledger, t, Developer, d);
      BalanceAppend(w.ledger, t, Escrow, d);
    } else {
      assert w.ledger + [] == w.ledger;
    }
  }

  lemma KnownIs(jobs: seq<Job>, dev: nat, key: Option<nat>)
    ensures Known(jobs, dev, key) <==>
      key.Some? && exists i :: 0 <= i < |jobs| && jobs[i].dev == dev && jobs[i].key == key
  {
    if i :| key.Some? && 0 <= i < |jobs| && jobs[i].dev == dev && jobs[i].key == key {
      assert SameKey(jobs[i], dev, key);
    }
  }
}
