/**
 Batch jobs: the status machine, assignment rounds, leases and reapers, result intake and
 quorum finalization, and the escrow each finalization resolves. Every committed handler or
 reaper pass over one job is a step.
 */
module Jobs {
  import opened Common
  import opened Money
  import opened Ledger
  import opened Quorum

  datatype Status = Queued | Assigned | Running | Completed | Failed | TimedOut

  /** An attempt's outcome: assigned, running, completed, failed, timeout, reassigned. */
  datatype Fate = Given | Begun | Succeeded | Errored | Overran | Lost

  /** The attempt number is the position in the job's list, from one. */
  datatype Attempt = Attempt(provider: nat, fate: Fate, finished: bool, lease: int, hash: Option<nat>)

  datatype Resources = Resources(cpu: int, gpu: bool)

  /** `moves` counts the status changes made so far. */
  datatype Job = Job(
    dev: nat, canary: bool, highValue: bool, redundancy: nat, resources: Resources, escrow: Option<nat>,
    status: Status, provider: Option<nat>, lease: Option<int>, rounds: nat, attempts: seq<Attempt>,
    proof: Option<nat>, costFinal: Option<nat>, key: Option<nat>, moves: nat)

  type Price = x: real | x >= 0.0

  /** `price` is in ticks per core-minute. */
  datatype Config = Config(maxAttempts: nat, bps: nat, price: Price) {
    predicate Valid() { maxAttempts >= 1 && bps <= BPS }
  }

  /** What the matcher returns: each provider once. */
  type Candidates = s: seq<nat> | forall i, k :: 0 <= i < k < |s| ==> s[i] != s[k] witness []

  datatype Action =
    | Assign(candidates: Candidates, lease: int)
    | Heartbeat(provider: nat, lease: int)
    | Report(provider: nat)
    | Result(provider: nat, late: bool, valid: bool, hash: Option<nat>, duration: real, data: nat)
    | Reap(now: int)
    | Drain(gone: set<nat>)
    | ReapAttempts(now: int, duration: real, data: nat)

  /**
   A submission carries its idempotency key, if any, and what the developer has available when
   on-chain settlement gates it. `Elsewhere` is any balanced posting of another component,
   which carries no job.
   */
  datatype Step =
    | Submit(dev: nat, highValue: bool, redundancy: nat, resources: Resources, timeout: nat, key: Option<nat>,
      available: Option<int>)
    | SubmitCanary(dev: nat, resources: Resources)
    | On(job: nat, action: Action)
    | Elsewhere(tx: Transaction)

  datatype World = World(jobs: seq<Job>, ledger: seq<Transaction>)

  predicate InFlight(s: Status) { s == Assigned || s == Running }

  predicate Terminal(s: Status) { s == Completed || s == Failed || s == TimedOut }

  // ---- the state machine ------------------------------------------------------------------

  predicate Legal(current: Status, target: Status) {
    match current
    case Queued => target == Assigned
    case Assigned => target in {Running, Queued, Failed, TimedOut}
    case Running => target in {Completed, Failed, TimedOut, Queued}
    case _ => false
  }

  /** A status change; none when the machine forbids it. */
  function Transition(j: Job, target: Status): Option<Job> {
    if !Legal(j.status, target) then None
    else
      var k := j.(status := target, moves := j.moves + 1);
      Some(if target == Queued then k.(provider := None, lease := None)
           else if Terminal(target) then k.(lease := None)
           else k)
  }

  // ---- assignment --------------------------------------------------------------------------

  function Take(s: Candidates, n: nat): Candidates { if |s| <= n then s else s[..n] }

  function NewAttempts(providers: seq<nat>, lease: int): seq<Attempt> {
    seq(|providers|, i requires 0 <= i < |providers| => Attempt(providers[i], Given, false, lease, None))
  }

  function DoAssign(j: Job, candidates: Candidates, lease: int): Option<Job> {
    var providers := Take(candidates, if j.highValue then j.redundancy else 1);
    if j.status != Queued || providers == [] then Some(j)
    else
      var k := Transition(j, Assigned);
      if k.None? then None
      else Some(k.value.(provider := Some(providers[0]), lease := Some(lease), rounds := j.rounds + 1,
                         attempts := j.attempts + NewAttempts(providers, lease)))
  }

  // ---- agents --------------------------------------------------------------------------------

  /** A provider's latest unfinished attempt; the length when it has none. */
  function FindAttempt(attempts: seq<Attempt>, provider: nat): (i: nat)
    ensures i <= |attempts|
    ensures i < |attempts| ==> attempts[i].provider == provider && !attempts[i].finished
    ensures forall k :: 0 <= k < |attempts| && attempts[k].provider == provider && !attempts[k].finished ==>
      k <= i < |attempts|
  {
    if attempts == [] then 0
    else
      var n := |attempts| - 1;
      if attempts[n].provider == provider && !attempts[n].finished then n
      else
        var i := FindAttempt(attempts[..n], provider);
        if i == n then n + 1 else i
  }

  /** The provider holds an unfinished attempt of a job in flight. */
  predicate Owns(j: Job, provider: nat) {
    InFlight(j.status) && FindAttempt(j.attempts, provider) < |j.attempts|
  }

  function DoHeartbeat(j: Job, provider: nat, lease: int): Job {
    if !Owns(j, provider) then j
    else
      var i := FindAttempt(j.attempts, provider);
      j.(lease := Some(lease), attempts := j.attempts[i := j.attempts[i].(lease := lease)])
  }

  /** The job as running, which it may already be. */
  function Started(j: Job): Option<Job> { if j.status == Assigned then Transition(j, Running) else Some(j) }

  function DoReport(j: Job, provider: nat): Option<Job> {
    if !Owns(j, provider) then Some(j)
    else
      var k := Started(j);
      var i := FindAttempt(j.attempts, provider);
      if k.None? then None
      else Some(k.value.(attempts := j.attempts[i := j.attempts[i].(fate := Begun)]))
  }

  // ---- finalization -----------------------------------------------------------------------------

  function VoteOf(a: Attempt): Vote { Vote(a.provider, a.hash, a.fate == Succeeded) }

  function Votes(attempts: seq<Attempt>): seq<Vote> {
    if attempts == [] then []
    else (if attempts[0].finished then [VoteOf(attempts[0])] else []) + Votes(attempts[1..])
  }

  /** The first finished, completed attempt of an agreeing provider. */
  function WinningAttempt(attempts: seq<Attempt>, agreers: seq<nat>): (i: nat)
    ensures i <= |attempts|
    ensures i < |attempts| ==> attempts[i].finished && attempts[i].fate == Succeeded && attempts[i].provider in agreers
  {
    if attempts == [] then 0
    else if attempts[0].finished && attempts[0].fate == Succeeded && attempts[0].provider in agreers then 0
    else 1 + WinningAttempt(attempts[1..], agreers)
  }

  predicate AllLate(attempts: seq<Attempt>) {
    && (exists i :: 0 <= i < |attempts| && attempts[i].finished)
    && (forall i :: 0 <= i < |attempts| && attempts[i].finished ==> attempts[i].fate == Overran)
  }

  /** The attempt that settles a finalized job, if its quorum was reached. */
  function Winner(j: Job): Option<Attempt> {
    var o := Evaluate(Votes(j.attempts), j.redundancy);
    var i := WinningAttempt(j.attempts, o.agreers);
    if o.winner.Some? && i < |j.attempts| then Some(j.attempts[i]) else None
  }

  function Finalize(j: Job): Option<Job> {
    var o := Evaluate(Votes(j.attempts), j.redundancy);
    if o.winner.Some? then
      var w := Winner(j);
      if w.None? then None else Transition(j.(proof := w.value.hash), Completed)
    else Transition(j, if AllLate(j.attempts) then TimedOut else Failed)
  }

  function MaybeFinalize(j: Job): Option<Job> {
    if Terminal(j.status) || |Votes(j.attempts)| < j.redundancy then Some(j) else Finalize(j)
  }

  function Judged(late: bool, valid: bool): Fate { if late then Overran else if valid then Succeeded else Errored }

  function DoResult(j: Job, provider: nat, late: bool, valid: bool, hash: Option<nat>): Option<Job> {
    if !Owns(j, provider) then Some(j)
    else
      var k := Started(j);
      var i := FindAttempt(j.attempts, provider);
      var a := j.attempts[i].(fate := Judged(late, valid), finished := true, hash := hash);
      if k.None? then None else MaybeFinalize(k.value.(attempts := j.attempts[i := a]))
  }

  // ---- reapers ----------------------------------------------------------------------------------------

  /** Requeue a job in flight, or fail it once its rounds are used up. */
  function Reclaim(cfg: Config, j: Job): Option<Job> {
    var spent := j.rounds >= cfg.maxAttempts;
    var n := |j.attempts|;
    var attempts :=
      if n == 0 then j.attempts
      else j.attempts[n - 1 := j.attempts[n - 1].(finished := true, fate := if spent then Errored else Lost)];
    Transition(j.(attempts := attempts), if spent then Failed else Queued)
  }

  predicate Expired(j: Job, now: int) {
    InFlight(j.status) && j.redundancy == 1 && j.lease.Some? && j.lease.value < now
  }

  predicate Stranded(j: Job, gone: set<nat>) {
    InFlight(j.status) && j.redundancy == 1 && j.provider.Some? && j.provider.value in gone
  }

  predicate Stale(a: Attempt, now: int) { !a.finished && a.lease < now }

  function Expire(attempts: seq<Attempt>, now: int): seq<Attempt> {
    seq(|attempts|, i requires 0 <= i < |attempts| =>
      if Stale(attempts[i], now) then attempts[i].(fate := Lost, finished := true) else attempts[i])
  }

  /** Mark the stale attempts of a redundant job lost, then decide it if every vote is in. */
  function DoReapAttempts(j: Job, now: int): Option<Job> {
    if InFlight(j.status) && j.redundancy > 1 && (exists a :: a in j.attempts && Stale(a, now))
    then MaybeFinalize(j.(attempts := Expire(j.attempts, now)))
    else Some(j)
  }

  // ---- one action --------------------------------------------------------------------------------------

  /** The job after an action; none when it would raise an illegal transition. */
  function Act(cfg: Config, j: Job, a: Action): Option<Job> {
    match a
    case Assign(candidates, lease) => DoAssign(j, candidates, lease)
    case Heartbeat(provider, lease) => Some(DoHeartbeat(j, provider, lease))
    case Report(provider) => DoReport(j, provider)
    case Result(provider, late, valid, hash, _, _) => DoResult(j, provider, late, valid, hash)
    case Reap(now) => if Expired(j, now) then Reclaim(cfg, j) else Some(j)
    case Drain(gone) => if Stranded(j, gone) then Reclaim(cfg, j) else Some(j)
    case ReapAttempts(now, _, _) => DoReapAttempts(j, now)
  }

  // ---- money --------------------------------------------------------------------------------------------

  /** Price of a run, rounded half-up to a tick. */
  function ComputeCost(cfg: Config, r: Resources, seconds: real): nat {
    var cores := Max(1, r.cpu) as real * (if r.gpu then 4.0 else 1.0);
    var minutes := (if seconds > 0.0 then seconds else 0.0) / 60.0;
    Natural(HalfUp(cfg.price * cores * minutes))
  }

  function Natural(x: int): nat { if x < 0 then 0 else x }

  function HoldTxs(id: nat, dev: nat, amount: nat): seq<Transaction> {
    if amount == 0 then [] else [Transfer(EscrowHold, Some(id), Developer, Some(dev), Escrow, Some(dev), amount)]
  }

  function RefundTxs(id: nat, dev: nat, amount: nat): seq<Transaction> {
    if amount == 0 then [] else [Transfer(JobRefund, Some(id), Escrow, Some(dev), Developer, Some(dev), amount)]
  }

  function PayTxs(id: nat, dev: nat, provider: nat, cost: nat, fee: int): seq<Transaction> {
    if cost == 0 then []
    else [Transaction(JobSettle, Some(id),
      [Debit(Escrow, cost, Some(dev))]
      + (if cost - fee > 0 then [Credit(Provider, cost - fee, Some(provider))] else [])
      + (if fee > 0 then [Credit(Protocol, fee, None)] else []))]
  }

  function DataTxs(id: nat, dev: nat, amount: nat): seq<Transaction> {
    if amount == 0 then [] else [Transfer(DataCost, Some(id), Developer, Some(dev), Protocol, None, amount)]
  }

  function Billed(j: Job): bool { !j.canary && j.escrow.Some? }

  /** What a finalized job costs: never more than its escrow. */
  function CostOf(cfg: Config, j: Job, duration: real): nat
    requires j.escrow.Some?
  {
    Min(ComputeCost(cfg, j.resources, duration), j.escrow.value)
  }

  /** The postings that resolve a finalized job's escrow. */
  function SettleTxs(cfg: Config, id: nat, j: Job, duration: real, data: nat): seq<Transaction> {
    if !Billed(j) then []
    else if j.status == Completed && Winner(j).Some? then
      var cost := CostOf(cfg, j, duration);
      PayTxs(id, j.dev, Winner(j).value.provider, cost, Fee(cost, cfg.bps))
      + RefundTxs(id, j.dev, j.escrow.value - cost)
      + DataTxs(id, j.dev, data)
    else RefundTxs(id, j.dev, j.escrow.value)
  }

  function Settled(cfg: Config, j: Job, duration: real, data: nat): Job {
    if !Billed(j) then j
    else if j.status == Completed && Winner(j).Some? then j.(costFinal := Some(CostOf(cfg, j, duration) + data))
    else j.(costFinal := Some(0))
  }

  // ---- the world -----------------------------------------------------------------------------------------

  function NewJob(dev: nat, canary: bool, highValue: bool, redundancy: nat, resources: Resources, escrow: Option<nat>,
      key: Option<nat>): Job
  {
    Job(dev, canary, highValue, Max(1, redundancy), resources, escrow, Queued, None, None, 0, [], None, None, key, 0)
  }

  /** The job a submission creates. */
  function Submitted(cfg: Config, s: Step): Job
    requires s.Submit?
  {
    NewJob(s.dev, false, s.highValue, s.redundancy, s.resources, Some(ComputeCost(cfg, s.resources, s.timeout as real)),
      s.key)
  }

  predicate SameKey(j: Job, dev: nat, key: Option<nat>) { j.dev == dev && key.Some? && j.key == key }

  /** The developer already submitted under this key. */
  predicate Known(jobs: seq<Job>, dev: nat, key: Option<nat>) {
    exists i :: 0 <= i < |jobs| && SameKey(jobs[i], dev, key)
  }

  /** On-chain settlement is active and the developer cannot cover the estimate. */
  predicate Unaffordable(cfg: Config, s: Step)
    requires s.Submit?
  {
    s.available.Some? && s.available.value < ComputeCost(cfg, s.resources, s.timeout as real)
  }

  /** Whether the action takes a job through the quorum, which also settles it. */
  predicate Decides(a: Action) { a.Result? || a.ReapAttempts? }

  function DoSubmit(cfg: Config, w: World, s: Step): World
    requires s.Submit?
  {
    if Known(w.jobs, s.dev, s.key) || Unaffordable(cfg, s) then w
    else
      var j := Submitted(cfg, s);
      World(w.jobs + [j], w.ledger + HoldTxs(|w.jobs|, j.dev, j.escrow.value))
  }

  function DoCanary(w: World, dev: nat, resources: Resources): World {
    w.(jobs := w.jobs + [NewJob(dev, true, false, 1, resources, None, None)])
  }

  function DoAction(cfg: Config, w: World, id: nat, a: Action): World {
    if id >= |w.jobs| then w
    else
      var j, r := w.jobs[id], Act(cfg, w.jobs[id], a);
      if r.None? then w
      else if Decides(a) && !Terminal(j.status) && Terminal(r.value.status) then
        World(w.jobs[id := Settled(cfg, r.value, a.duration, a.data)],
              w.ledger + SettleTxs(cfg, id, r.value, a.duration, a.data))
      else w.(jobs := w.jobs[id := r.value])
  }

  function Next(cfg: Config, w: World, s: Step): World {
    match s
    case Submit(_, _, _, _, _, _, _) => DoSubmit(cfg, w, s)
    case SubmitCanary(dev, resources) => DoCanary(w, dev, resources)
    case On(id, action) => DoAction(cfg, w, id, action)
    case Elsewhere(t) => if t.job.None? && Balanced(t.postings) then w.(ledger := w.ledger + [t]) else w
  }

  function Run(cfg: Config, w: World, steps: seq<Step>): World
    decreases |steps|
  {
    if steps == [] then w else Run(cfg, Next(cfg, w, steps[0]), steps[1..])
  }

  const EMPTY := World([], [])
}
