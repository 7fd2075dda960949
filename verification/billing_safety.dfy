/** When a hold is returned exactly once, when settling fails, and what keeps every run clear of it. */
module BillingSafety {
  import opened Common
  import opened Money
  import opened Ledger
  import opened NodeUsage
  import opened Streaming
  import opened StreamingTheorems
  import opened Billing
  import opened BillingTheorems

  /** The charge a raw amount comes to. */
  function CostOf(raw: real): nat { AtLeastZero(Quantize(raw)) }

  /** The balance and the returned hold cover the charge. */
  predicate Covers(l: seq<Transaction>, h: Hold, cost: nat) {
    cost == 0 || Balance(l, Developer, h.dev) + h.held >= cost
  }

  lemma TryIff(bps: nat, l: seq<Transaction>, h: Hold, provider: nat, c: Closing)
    requires bps <= BPS && c.first.Bill?
    ensures
      var cost := CostOf(c.first.actual);
      if Covers(l, h, cost) then
        && FirstTry(bps, l, h.dev, h.held, provider, c).1 == Settled(provider, cost)
        && Handle(bps, l, h.dev, h.held, provider, c.first).1 == Settled(provider, cost)
      else
        && FirstTry(bps, l, h.dev, h.held, provider, c) ==
          (l, if c.again.Some? then Retrying(provider, c.again.value) else Stranded)
        && Handle(bps, l, h.dev, h.held, provider, c.first).1 == Twice
  {
    hide Balance, Quantize, ReturnHold, UsageTx;
    var back := ReturnHold(l, h.dev, h.held);
    ReturnShift(l, h.dev, h.held, h.dev);
    ChargeShift(bps, back, h.dev, provider, c.first.actual, h.dev);
  }

  /** An open hold and an ending that bills it. */
  predicate Bills(w: World, i: nat, e: Ending) {
    && i < |w.holds| && w.holds[i].status.Open? && Proper(w.holds[i].request, e)
    && ClosingOf(w.holds[i].request, e).first.Bill?
  }

  /**
   The hold is returned exactly once, and charged, if and only if the balance and the hold
   cover the charge. Otherwise a handler returns it twice and charges nothing, and a stream
   leaves the books alone and either tries once more or strands the hold.
   */
  ghost predicate OnceIffCovered(bps: nat, w: World, i: nat, provider: nat, e: Ending)
    requires Bills(w, i, e)
  {
    var h, w', c := w.holds[i], DoFinish(bps, w, i, provider, e), ClosingOf(w.holds[i].request, e);
    var cost := CostOf(c.first.actual);
    && cost <= h.held
    && (Covers(w.ledger, h, cost) <==> w'.holds[i].status == Settled(provider, cost))
    && (Covers(w.ledger, h, cost) <==> Balance(w'.ledger, Escrow, h.dev) == Balance(w.ledger, Escrow, h.dev) - h.held)
    && (!Covers(w.ledger, h, cost) && !e.Stream? ==>
      && w'.holds[i].status == Twice
      && Balance(w'.ledger, Developer, h.dev) == Balance(w.ledger, Developer, h.dev) + 2 * h.held
      && Balance(w'.ledger, Escrow, h.dev) == Balance(w.ledger, Escrow, h.dev) - 2 * h.held)
    && (!Covers(w.ledger, h, cost) && e.Stream? ==>
      && w'.ledger == w.ledger
      && w'.holds[i].status == if c.again.Some? then Retrying(provider, c.again.value) else Stranded)
  }

  lemma FinishIff(bps: nat, w: World, i: nat, provider: nat, e: Ending)
    requires bps <= BPS && Inv(bps, w) && Bills(w, i, e)
    ensures OnceIffCovered(bps, w, i, provider, e)
  {
    hide Balance, Quantize, Ceiling, Handle, FirstTry, ClosingOf, Covers, Inv, DevOk;
    var h, c := w.holds[i], ClosingOf(w.holds[i].request, e);
    HoldIn(bps, w, i);
    ClosingWithin(h.request, e);
    CeilingAtLeastZero(h.request);
    ChargeFits(c.first.actual, Ceiling(h.request));
    TryIff(bps, w.ledger, h, provider, c);
    FinishResolves(bps, w, i, provider, e, h.dev);
    ZeroCovers(w.ledger, h);
  }

  /** In every reachable state a request that bills returns its hold once exactly when it is covered. */
  lemma ReturnedOnceIff(bps: nat, steps: seq<Step>, i: nat, provider: nat, e: Ending)
    requires bps <= BPS && Bills(Run(bps, EMPTY, steps), i, e)
    ensures OnceIffCovered(bps, Run(bps, EMPTY, steps), i, provider, e)
  {
    hide Run, Inv, Bills, OnceIffCovered;
    EmptyInv(bps);
    RunInv(bps, EMPTY, steps);
    FinishIff(bps, Run(bps, EMPTY, steps), i, provider, e);
  }

  lemma ZeroCovers(l: seq<Transaction>, h: Hold)
    ensures Covers(l, h, 0)
  {}

  /** A stream's clean-up after a failed settlement: released, charged or stranded, by the same test. */
  lemma RetryIff(bps: nat, w: World, i: nat)
    requires bps <= BPS && i < |w.holds| && w.holds[i].status.Retrying?
    ensures
      var h, w' := w.holds[i], DoRetry(bps, w, i);
      var s, cost := h.status, CostOf(h.status.partial);
      w'.holds[i].status ==
        if s.partial <= 0.0 then Released else if Covers(w.ledger, h, cost) then Settled(s.provider, cost) else Stranded
    ensures DoRetry(bps, w, i).holds[i].status.Stranded? ==> DoRetry(bps, w, i).ledger == w.ledger
  {
    hide Balance, Quantize, Covers;
    var h := w.holds[i];
    if h.status.partial > 0.0 {
      TryIff(bps, w.ledger, h, h.status.provider, Closing(Bill(h.status.partial), None));
    }
  }

  // ---- runs clear of it ----------------------------------------------------------------------------

  ghost predicate Solvent(l: seq<Transaction>) { forall d: nat :: Balance(l, Developer, d) >= 0 }

  ghost predicate Clean(w: World) {
    Solvent(w.ledger) && forall i :: 0 <= i < |w.holds| ==>
      w.holds[i].status.Open? || w.holds[i].status.Settled? || w.holds[i].status.Released?
  }

  /** Nothing another component posts overdraws a developer. */
  ghost predicate Covered(bps: nat, w: World, steps: seq<Step>)
    decreases |steps|
  {
    steps != [] ==>
      var w' := Next(bps, w, steps[0]);
      (steps[0].Post? ==> Solvent(w'.ledger)) && Covered(bps, w', steps[1..])
  }

  lemma FinishClean(bps: nat, w: World, i: nat, provider: nat, e: Ending)
    requires bps <= BPS && Inv(bps, w) && Clean(w)
    ensures Clean(DoFinish(bps, w, i, provider, e))
  {
    hide Inv, Balance, Quantize, Handle, FirstTry, ClosingOf, Resolves;
    if i < |w.holds| && w.holds[i].status.Open? && Proper(w.holds[i].request, e) {
      var h, w' := w.holds[i], DoFinish(bps, w, i, provider, e);
      assert Balance(w.ledger, Developer, h.dev) >= 0;
      if ClosingOf(h.request, e).first.Bill? {
        FinishIff(bps, w, i, provider, e);
      } else {
        Freed(bps, w.ledger, h, provider, ClosingOf(h.request, e));
      }
      forall d: nat ensures Balance(w'.ledger, Developer, d) >= 0 {
        FinishResolves(bps, w, i, provider, e, d);
        ShiftsDeveloper(bps, w.ledger, w'.ledger, h, w'.holds[i].status, d);
        assert Balance(w.ledger, Developer, d) >= 0;
      }
    }
  }

  lemma ShiftsDeveloper(bps: nat, l: seq<Transaction>, m: seq<Transaction>, h: Hold, status: Status, d: nat)
    requires Resolves(bps, l, m, h, status, d)
    ensures Balance(m, Developer, d) ==
      Balance(l, Developer, d) + if d == h.dev then h.held - Taken(h.(status := status)) else 0
  {}

  lemma Freed(bps: nat, l: seq<Transaction>, h: Hold, provider: nat, c: Closing)
    requires c.first.Release?
    ensures FirstTry(bps, l, h.dev, h.held, provider, c).1 == Released
    ensures Handle(bps, l, h.dev, h.held, provider, c.first).1 == Released
  {}

  lemma BeginClean(bps: nat, w: World, dev: nat, r: Request)
    requires Clean(w)
    ensures Clean(DoBegin(w, dev, r))
  {
    hide Balance, Quantize, Ceiling;
    var w', amount := DoBegin(w, dev, r), AtLeastZero(Quantize(Ceiling(r)));
    if w'.ledger != w.ledger {
      forall d: nat ensures Balance(w'.ledger, Developer, d) >= 0 {
        assert Balance(w.ledger, Developer, d) >= 0;
        HoldShift(w.ledger, dev, amount, d);
      }
    }
  }

  lemma DepositClean(w: World, dev: nat, raw: real)
    requires Clean(w)
    ensures Clean(DoDeposit(w, dev, raw))
  {
    hide Balance, Quantize, DepositTx;
    var w', amount := DoDeposit(w, dev, raw), AtLeastZero(Quantize(raw));
    if w'.ledger != w.ledger {
      forall d: nat ensures Balance(w'.ledger, Developer, d) >= 0 {
        assert Balance(w.ledger, Developer, d) >= 0;
        DepositForeign(dev, amount, d);
        BalanceAppend(w.ledger, DepositTx(dev, amount), Developer, d);
      }
    }
  }

  lemma StepClean(bps: nat, w: World, s: Step)
    requires bps <= BPS && Inv(bps, w) && Clean(w) && (s.Post? ==> Solvent(Next(bps, w, s).ledger))
    ensures Clean(Next(bps, w, s))
  {
    hide Inv, DoDeposit, DoBegin, DoFinish, Solvent;
    match s {
      case Deposit(dev, amount) => DepositClean(w, dev, amount);
      case Begin(dev, request) => BeginClean(bps, w, dev, request);
      case Finish(i, provider, ending) => FinishClean(bps, w, i, provider, ending);
      case Retry(_) =>
      case Post(_) =>
    }
  }

  lemma {:induction false} RunClean(bps: nat, w: World, steps: seq<Step>)
    requires bps <= BPS && Inv(bps, w) && Clean(w) && Covered(bps, w, steps)
    ensures Clean(Run(bps, w, steps))
    decreases |steps|
  {
    hide Inv, Next, Clean, Solvent;
    if steps != [] {
      StepInv(bps, w, steps[0]);
      StepClean(bps, w, steps[0]);
      RunClean(bps, Next(bps, w, steps[0]), steps[1..]);
    }
  }

  /**
   If nothing another component posts overdraws a developer, then over every interleaving no
   developer is ever overdrawn, every hold is open, charged or returned once, and no settlement
   fails on balance.
   */
  lemma HoldSafety(bps: nat, steps: seq<Step>)
    requires bps <= BPS && Covered(bps, EMPTY, steps)
    ensures Clean(Run(bps, EMPTY, steps))
    ensures
      var w := Run(bps, EMPTY, steps);
      forall i, provider, e :: 0 <= i < |w.holds| && w.holds[i].status.Open? && Proper(w.holds[i].request, e) ==>
        var status := DoFinish(bps, w, i, provider, e).holds[i].status;
        status.Settled? || status.Released?
  {
    hide Run, Covered;
    EmptyInv(bps);
    RunInv(bps, EMPTY, steps);
    RunClean(bps, EMPTY, steps);
    var w := Run(bps, EMPTY, steps);
    forall i, provider, e | 0 <= i < |w.holds| && w.holds[i].status.Open? && Proper(w.holds[i].request, e)
      ensures
        var status := DoFinish(bps, w, i, provider, e).holds[i].status;
        status.Settled? || status.Released?
    {
      NeverFails(bps, w, i, provider, e);
    }
  }

  lemma NeverFails(bps: nat, w: World, i: nat, provider: nat, e: Ending)
    requires bps <= BPS && Inv(bps, w) && Clean(w) && i < |w.holds| && w.holds[i].status.Open?
    requires Proper(w.holds[i].request, e)
    ensures
      var status := DoFinish(bps, w, i, provider, e).holds[i].status;
      status.Settled? || status.Released?
  {
    hide Inv, Balance, Quantize, Handle, FirstTry, ClosingOf;
    var h := w.holds[i];
    assert Balance(w.ledger, Developer, h.dev) >= 0;
    if ClosingOf(h.request, e).first.Bill? {
      FinishIff(bps, w, i, provider, e);
    } else {
      Freed(bps, w.ledger, h, provider, ClosingOf(h.request, e));
    }
  }

  // ---- only requests and deposits ----------------------------------------------------------------------

  ghost predicate NoPosts(steps: seq<Step>) { forall i :: 0 <= i < |steps| ==> !steps[i].Post? }

  lemma {:induction false} NoPostsCovered(bps: nat, w: World, steps: seq<Step>)
    requires NoPosts(steps)
    ensures Covered(bps, w, steps)
    decreases |steps|
  {
    hide Next;
    if steps != [] { NoPostsCovered(bps, Next(bps, w, steps[0]), steps[1..]); }
  }

  /** Deposits and requests move escrow only through the holds. */
  lemma StepEscrow(bps: nat, w: World, s: Step, d: nat)
    requires bps <= BPS && !s.Post?
    ensures Other(Next(bps, w, s).ledger, Escrow, d) == Other(w.ledger, Escrow, d)
  {
    hide Balance, Quantize, Ceiling, Resolve, SecondTry, Proper, Other, Resolves;
    match s {
      case Deposit(dev, raw) =>
        var t := DepositTx(dev, AtLeastZero(Quantize(raw)));
        TransferMoves(t, TopUp, None, Protocol, None, Developer, Some(dev), AtLeastZero(Quantize(raw)), Escrow, d);
        OtherAppend(w.ledger, t, Escrow, d);
      case Begin(dev, r) => HoldShift(w.ledger, dev, AtLeastZero(Quantize(Ceiling(r))), d);
      case Finish(i, provider, e) =>
        if DoFinish(bps, w, i, provider, e) != w {
          FinishResolves(bps, w, i, provider, e, d);
          ShiftsNothingElse(bps, w.ledger, DoFinish(bps, w, i, provider, e).ledger, w.holds[i],
            DoFinish(bps, w, i, provider, e).holds[i].status, d);
        }
      case Retry(i) =>
        if DoRetry(bps, w, i) != w {
          RetryResolves(bps, w, i, d);
          ShiftsNothingElse(bps, w.ledger, DoRetry(bps, w, i).ledger, w.holds[i], DoRetry(bps, w, i).holds[i].status,
            d);
        }
    }
  }

  lemma ShiftsNothingElse(bps: nat, l: seq<Transaction>, m: seq<Transaction>, h: Hold, status: Status, d: nat)
    requires Resolves(bps, l, m, h, status, d)
    ensures Other(m, Escrow, d) == Other(l, Escrow, d)
  {}

  lemma {:induction false} RunEscrow(bps: nat, w: World, steps: seq<Step>, d: nat)
    requires bps <= BPS && NoPosts(steps)
    ensures Other(Run(bps, w, steps).ledger, Escrow, d) == Other(w.ledger, Escrow, d)
    decreases |steps|
  {
    hide Next, Other;
    if steps != [] {
      StepEscrow(bps, w, steps[0], d);
      RunEscrow(bps, Next(bps, w, steps[0]), steps[1..], d);
    }
  }

  ghost function OpenOf(d: nat): Hold -> int { (h: Hold) => if h.dev == d && h.status.Open? then h.held else 0 }

  lemma {:induction false} CleanSum(holds: seq<Hold>, d: nat)
    requires forall i :: 0 <= i < |holds| ==>
      holds[i].status.Open? || holds[i].status.Settled? || holds[i].status.Released?
    ensures Sum(holds, EscrowOf(d)) == Sum(holds, OpenOf(d))
  {
    if holds != [] { CleanSum(holds[..|holds| - 1], d); }
  }

  /** With only deposits and requests, in any interleaving, escrow is exactly the open holds and nobody is overdrawn. */
  lemma RequestsOnly(bps: nat, steps: seq<Step>, d: nat)
    requires bps <= BPS && NoPosts(steps)
    ensures
      var w := Run(bps, EMPTY, steps);
      && Balance(w.ledger, Escrow, d) == Sum(w.holds, OpenOf(d))
      && Balance(w.ledger, Developer, d) >= 0
  {
    hide Run, Covered, Balance, Other, Sum;
    NoPostsCovered(bps, EMPTY, steps);
    HoldSafety(bps, steps);
    HoldsExact(bps, steps);
    var w := Run(bps, EMPTY, steps);
    assert DevOk(w, d);
    RunEscrow(bps, EMPTY, steps, d);
    NothingElse(d);
    CleanSum(w.holds, d);
  }

  lemma NothingElse(d: nat)
    ensures Other([], Escrow, d) == 0
  {}
}
