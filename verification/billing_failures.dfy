/** How settling comes to fail, and runs in which it does. */
module BillingFailures {
  import opened Common
  import opened Money
  import opened Ledger
  import opened NodeUsage
  import opened Streaming
  import opened StreamingTheorems
  import opened Billing
  import opened BillingTheorems
  import opened BillingSafety
  import Jobs
  import Watcher
  import WatcherMirror

  // ---- other components' postings between the gate and the settlement ------------------------------

  ghost predicate AllForeign(txs: seq<Transaction>) {
    forall i :: 0 <= i < |txs| ==> Foreign(txs[i]) && Balanced(txs[i].postings)
  }

  function Posts(txs: seq<Transaction>): seq<Step> { seq(|txs|, i requires 0 <= i < |txs| => Post(txs[i])) }

  /** What postings took from a developer's balance. */
  function TakenBy(txs: seq<Transaction>, dev: nat): int {
    if txs == [] then 0 else TakenBy(txs[1..], dev) - Moved(txs[0].postings, Developer, dev)
  }

  lemma {:induction false} PostsAppend(bps: nat, w: World, txs: seq<Transaction>, dev: nat)
    requires AllForeign(txs)
    ensures
      var w' := Run(bps, w, Posts(txs));
      w'.holds == w.holds && Balance(w'.ledger, Developer, dev) == Balance(w.ledger, Developer, dev) - TakenBy(txs, dev)
    decreases |txs|
  {
    hide Balance, Moved, Balanced, Foreign;
    if txs != [] {
      assert Posts(txs)[0] == Post(txs[0]) && Posts(txs)[1..] == Posts(txs[1..]);
      var w1 := w.(ledger := w.ledger + [txs[0]]);
      assert Next(bps, w, Post(txs[0])) == w1;
      BalanceAppend(w.ledger, txs[0], Developer, dev);
      PostsAppend(bps, w1, txs[1..], dev);
    }
  }

  /**
   From a reachable state, let other components post anything while a request is out: its
   settlement fails if and only if they took more from its developer than the balance and the
   hold leave over the charge. Job holds, data charges, withdrawals and reversals all count.
   */
  lemma SettleFailsIff(bps: nat, steps: seq<Step>, txs: seq<Transaction>, i: nat, provider: nat, e: Ending)
    requires bps <= BPS && AllForeign(txs) && Bills(Run(bps, EMPTY, steps), i, e)
    ensures
      var w := Run(bps, EMPTY, steps);
      var w1 := Run(bps, w, Posts(txs));
      var h, cost := w.holds[i], CostOf(ClosingOf(w.holds[i].request, e).first.actual);
      && Bills(w1, i, e)
      && (!DoFinish(bps, w1, i, provider, e).holds[i].status.Settled? <==>
        cost > 0 && TakenBy(txs, h.dev) > Balance(w.ledger, Developer, h.dev) + h.held - cost)
  {
    hide Run, Inv, Balance, ClosingOf, Quantize, Handle, FirstTry;
    EmptyInv(bps);
    RunInv(bps, EMPTY, steps);
    var w := Run(bps, EMPTY, steps);
    PostsAppend(bps, w, txs, w.holds[i].dev);
    RunInv(bps, w, Posts(txs));
    FinishIff(bps, Run(bps, w, Posts(txs)), i, provider, e);
  }

  lemma TakenByOne(t: Transaction, dev: nat)
    ensures TakenBy([t], dev) == 0 - Moved(t.postings, Developer, dev)
  {
    assert [t][1..] == [];
  }

  /** A job's hold, made without a check when no on-chain gate is active, and a job's data charge. */
  lemma JobDebits(id: nat, dev: nat, amount: nat)
    requires amount > 0
    ensures AllForeign(Jobs.HoldTxs(id, dev, amount)) && TakenBy(Jobs.HoldTxs(id, dev, amount), dev) == amount
    ensures AllForeign(Jobs.DataTxs(id, dev, amount)) && TakenBy(Jobs.DataTxs(id, dev, amount), dev) == amount
  {
    hide Moved, Balanced;
    var h, d := Jobs.HoldTxs(id, dev, amount)[0], Jobs.DataTxs(id, dev, amount)[0];
    TransferMoves(h, EscrowHold, Some(id), Developer, Some(dev), Escrow, Some(dev), amount, Developer, dev);
    TransferMoves(d, DataCost, Some(id), Developer, Some(dev), Protocol, None, amount, Developer, dev);
    TakenByOne(h, dev);
    TakenByOne(d, dev);
  }

  /** A withdrawal the watcher applies and a deposit it reverses. */
  lemma ChainDebits(cfg: Watcher.Config, l: Watcher.Log)
    requires l.wallet in cfg.owners
    ensures
      l.name == Watcher.Withdrawn ==>
        var t := Watcher.EffectOf(cfg, l);
        t.Some? && AllForeign([t.value]) && TakenBy([t.value], cfg.owners[l.wallet]) == FromUnits(l.amount)
    ensures
      l.name == Watcher.Deposited ==>
        var t := Watcher.ReversalOf(cfg, l);
        t.Some? && AllForeign([t.value]) && TakenBy([t.value], cfg.owners[l.wallet]) == FromUnits(l.amount)
  {
    hide Moved, Balanced;
    var dev := cfg.owners[l.wallet];
    WatcherMirror.EffectMoves(cfg, l, dev);
    WatcherMirror.ReversalMoves(cfg, l, dev);
    if l.name == Watcher.Withdrawn { TakenByOne(Watcher.EffectOf(cfg, l).value, dev); }
    if l.name == Watcher.Deposited { TakenByOne(Watcher.ReversalOf(cfg, l).value, dev); }
  }

  // ---- a handler that returns a hold twice ------------------------------------------------------------

  lemma {:induction false} RunSnoc(bps: nat, w: World, steps: seq<Step>, s: Step)
    ensures Run(bps, w, steps + [s]) == Next(bps, Run(bps, w, steps), s)
    decreases |steps|
  {
    hide Next;
    if steps == [] {
      assert [] + [s] == [s] && [s][1..] == [];
      assert Run(bps, Next(bps, w, s), []) == Next(bps, w, s);
    } else {
      assert (steps + [s])[0] == steps[0] && (steps + [s])[1..] == steps[1..] + [s];
      RunSnoc(bps, Next(bps, w, steps[0]), steps[1..], s);
    }
  }

  lemma RunNothing(bps: nat, w: World)
    ensures Run(bps, w, []) == w
  {}

  /** Ten units deposited and reserved, then five taken by a job's unchecked hold. */
  lemma Squeezed(bps: nat, r: Request) returns (steps: seq<Step>, w: World)
    requires bps <= BPS && Ceiling(r) == 10.0
    ensures w == Run(bps, EMPTY, steps)
    ensures Inv(bps, w) && w.holds == [Hold(0, r, 1000, Open)]
    ensures Balance(w.ledger, Developer, 0) == -500 && Balance(w.ledger, Escrow, 0) == 1500
  {
    hide Balance, Balanced, Inv, Ceiling, Shift, Run;
    assert Quantize(10.0) == 1000 by { HalfUpOfInt(10); }
    var t := Jobs.HoldTxs(0, 0, 500)[0];
    var a, b, c := Deposit(0, 10.0), Begin(0, r), Post(t);
    steps := [] + [a] + [b] + [c];
    RunNothing(bps, EMPTY);
    RunSnoc(bps, EMPTY, [], a);
    RunSnoc(bps, EMPTY, [] + [a], b);
    RunSnoc(bps, EMPTY, [] + [a] + [b], c);
    EmptyInv(bps);
    StepInv(bps, EMPTY, a);
    var w1 := Next(bps, EMPTY, a);
    TransferMoves(DepositTx(0, 1000), TopUp, None, Protocol, None, Developer, Some(0), 1000, Developer, 0);
    TransferMoves(DepositTx(0, 1000), TopUp, None, Protocol, None, Developer, Some(0), 1000, Escrow, 0);
    BalanceAppend([], DepositTx(0, 1000), Developer, 0);
    BalanceAppend([], DepositTx(0, 1000), Escrow, 0);
    NothingPosted();
    StepInv(bps, w1, b);
    var w2 := Next(bps, w1, b);
    Shifts(w1.ledger, 0, 1000);
    assert w2.holds == [Hold(0, r, 1000, Open)];
    StepInv(bps, w2, c);
    TransferMoves(t, EscrowHold, Some(0), Developer, Some(0), Escrow, Some(0), 500, Developer, 0);
    TransferMoves(t, EscrowHold, Some(0), Developer, Some(0), Escrow, Some(0), 500, Escrow, 0);
    BalanceAppend(w2.ledger, t, Developer, 0);
    BalanceAppend(w2.ledger, t, Escrow, 0);
    w := Next(bps, w2, c);
  }

  lemma NothingPosted()
    ensures Balance([], Developer, 0) == 0 && Balance([], Escrow, 0) == 0
  {}

  lemma Shifts(l: seq<Transaction>, dev: nat, amount: nat)
    ensures Balance(l + [HoldTx(dev, amount)], Developer, dev) == Balance(l, Developer, dev) - amount
    ensures Balance(l + [HoldTx(dev, amount)], Escrow, dev) == Balance(l, Escrow, dev) + amount
  {
    hide Balance, Other;
    HoldShift(l, dev, amount, dev);
  }

  /** One image at ten units. */
  const PICTURE := Image(Spec(0.0, 0.0, 10.0), 1)

  /**
   Deposit ten, hold ten, lose five to a job: the image handler leaves escrow at minus five and the balance at
   fifteen.
   */
  lemma ReturnedTwice(bps: nat) returns (steps: seq<Step>)
    requires bps <= BPS
    ensures
      var w := Run(bps, EMPTY, steps);
      && |w.holds| == 1 && w.holds[0].status == Twice
      && Balance(w.ledger, Developer, 0) == 1500 && Balance(w.ledger, Escrow, 0) == -500
  {
    hide Balance, Inv, Run, Handle, FirstTry;
    var w;
    steps, w := Squeezed(bps, PICTURE);
    var f := Finish(0, 7, Stored(1));
    assert ClosingOf(PICTURE, Stored(1)).first == Bill(10.0);
    assert CostOf(10.0) == 1000 by { HalfUpOfInt(10); }
    FinishIff(bps, w, 0, 7, Stored(1));
    RunSnoc(bps, EMPTY, steps, f);
    steps := steps + [f];
  }

  // ---- a stream that strands its hold -------------------------------------------------------------------

  const TEN := Terms(Spec(0.0, 1.0, 0.0), 0, 10)

  const REPORT := map["usage" := Dict(map["completion_tokens" := Int(10)])]

  const WHOLE := Stream([Response(Int(200), Dict(REPORT))], Exhausted, None)

  lemma WholeBills()
    ensures ClosingOf(Chat(TEN), WHOLE) == Closing(Bill(10.0), Some(10.0))
  {
    var fields := map["completion_tokens" := Int(10)];
    assert UsageFields(REPORT) == fields;
    assert UsageFrom(REPORT, 0, 10) == Some(NodeUsage.Usage(0, 10));
    assert Billable(TEN, 0, Some(NodeUsage.Usage(0, 10))) == 10.0;
  }

  /** The first hold is stranded, and the ledger's escrow still has its thousand on top of everything else there. */
  ghost predicate HeldBack(w: World) {
    && |w.holds| >= 1 && w.holds[0].status == Stranded && w.holds[0].held == 1000
    && Balance(w.ledger, Escrow, 0) == Other(w.ledger, Escrow, 0) + 1000 + Sum(w.holds[1..], EscrowOf(0))
  }

  lemma {:induction false} SumFirst<T>(s: seq<T>, f: T -> int)
    requires s != []
    ensures Sum(s, f) == f(s[0]) + Sum(s[1..], f)
    decreases |s|
  {
    var n := |s| - 1;
    if n == 0 {
      assert s[..0] == [] && s[1..] == [];
    } else {
      SumFirst(s[..n], f);
      assert s[..n][1..] == s[1..][..n - 1] && s[1..][n - 1] == s[n];
    }
  }

  lemma StrandedHolds(bps: nat, w: World)
    requires Inv(bps, w) && |w.holds| >= 1
    requires w.holds[0].status == Stranded && w.holds[0].held == 1000 && w.holds[0].dev == 0
    ensures HeldBack(w)
  {
    hide Balance, Other, Sum;
    assert DevOk(w, 0);
    SumFirst(w.holds, EscrowOf(0));
  }

  /**
   The same squeeze on a streamed request: its settlement fails, its clean-up fails the same
   way, and in every continuation the hold stays in escrow, neither charged nor returned.
   */
  lemma StrandedForever(bps: nat) returns (steps: seq<Step>)
    requires bps <= BPS
    ensures Balance(Run(bps, EMPTY, steps).ledger, Escrow, 0) == 1500
    ensures forall more :: HeldBack(Run(bps, Run(bps, EMPTY, steps), more))
  {
    hide Balance, Inv, Run, Handle, FirstTry, ClosingOf, Ceiling;
    assert Ceiling(Chat(TEN)) == 10.0 by { TenCosts(); }
    var w;
    steps, w := Squeezed(bps, Chat(TEN));
    WholeBills();
    assert CostOf(10.0) == 1000 by { HalfUpOfInt(10); }
    FinishIff(bps, w, 0, 7, WHOLE);
    var f := Finish(0, 7, WHOLE);
    var w1 := Next(bps, w, f);
    assert w1.ledger == w.ledger && w1.holds[0].status == Retrying(7, 10.0);
    RetryIff(bps, w1, 0);
    RunSnoc(bps, EMPTY, steps, f);
    RunSnoc(bps, EMPTY, steps + [f], Retry(0));
    steps := steps + [f] + [Retry(0)];
    var w2 := Next(bps, w1, Retry(0));
    StepInv(bps, w, f);
    StepInv(bps, w1, Retry(0));
    forall more ensures HeldBack(Run(bps, w2, more)) {
      ResolvedOnce(bps, w2, more, 0);
      RunInv(bps, w2, more);
      StrandedHolds(bps, Run(bps, w2, more));
    }
  }

  lemma TenCosts()
    ensures Ceiling(Chat(TEN)) == 10.0
  {}
}
