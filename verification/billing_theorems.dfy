/** What every interleaving of deposits, reservations, settlements, releases and other postings keeps. */
module BillingTheorems {
  import opened Common
  import opened Money
  import opened Ledger
  import opened NodeUsage
  import opened Streaming
  import opened StreamingTheorems
  import opened Billing

  // ---- what a hold stands for ----------------------------------------------------------------

  /** What a hold keeps in escrow: all of it until resolved, nothing after, a deficit when returned twice. */
  function InEscrow(h: Hold): int {
    match h.status
    case Settled(_, _) => 0
    case Released => 0
    case Twice => 0 - h.held
    case _ => h.held
  }

  /** What a hold has taken from its developer. */
  function Taken(h: Hold): int {
    match h.status
    case Settled(_, cost) => cost
    case Released => 0
    case Twice => 0 - h.held
    case _ => h.held
  }

  function Earned(bps: nat, h: Hold, p: nat): int {
    if h.status.Settled? && h.status.provider == p then h.status.cost - Cut(bps, h.status.cost) else 0
  }

  ghost function EscrowOf(d: nat): Hold -> int { (h: Hold) => if h.dev == d then InEscrow(h) else 0 }

  ghost function TakenOf(d: nat): Hold -> int { (h: Hold) => if h.dev == d then Taken(h) else 0 }

  ghost function EarnedOf(bps: nat, p: nat): Hold -> int { (h: Hold) => Earned(bps, h, p) }

  /** What deposits and other components moved on an account. */
  function Other(l: seq<Transaction>, a: Account, ref: nat): int {
    if l == [] then 0
    else Other(l[..|l| - 1], a, ref) + if Foreign(l[|l| - 1]) then Moved(l[|l| - 1].postings, a, ref) else 0
  }

  // ---- the invariant ---------------------------------------------------------------------------

  /** A hold is the rounded ceiling; a charge fits in it and tops the ceiling by half a unit at most. */
  ghost predicate HoldOk(h: Hold) {
    && h.held == AtLeastZero(Quantize(Ceiling(h.request)))
    && (h.status.Settled? ==>
      && h.status.cost <= h.held
      && h.status.cost as real <= (Ceiling(h.request) + 0.5) * TICKS_PER_UNIT as real)
    && (h.status.Retrying? ==> h.status.partial <= Ceiling(h.request))
  }

  ghost predicate DevOk(w: World, d: nat) {
    && Balance(w.ledger, Escrow, d) == Other(w.ledger, Escrow, d) + Sum(w.holds, EscrowOf(d))
    && Balance(w.ledger, Developer, d) == Other(w.ledger, Developer, d) - Sum(w.holds, TakenOf(d))
  }

  ghost predicate ProviderOk(bps: nat, w: World, p: nat) {
    Balance(w.ledger, Provider, p) == Other(w.ledger, Provider, p) + Sum(w.holds, EarnedOf(bps, p))
  }

  ghost predicate Inv(bps: nat, w: World) {
    && LedgerOk(w.ledger)
    && (forall i :: 0 <= i < |w.holds| ==> HoldOk(w.holds[i]))
    && (forall d: nat :: DevOk(w, d))
    && (forall p: nat :: ProviderOk(bps, w, p))
  }

  // ---- what each posting moves -------------------------------------------------------------------

  /** Between two ledgers only these amounts moved for an owner, and none of them by other components. */
  ghost predicate Shift(l: seq<Transaction>, m: seq<Transaction>, d: nat, dev: int, escrow: int, provider: int) {
    && (LedgerOk(l) ==> LedgerOk(m))
    && Balance(m, Developer, d) == Balance(l, Developer, d) + dev
    && Balance(m, Escrow, d) == Balance(l, Escrow, d) + escrow
    && Balance(m, Provider, d) == Balance(l, Provider, d) + provider
    && Other(m, Developer, d) == Other(l, Developer, d)
    && Other(m, Escrow, d) == Other(l, Escrow, d)
    && Other(m, Provider, d) == Other(l, Provider, d)
  }

  lemma OtherAppend(l: seq<Transaction>, t: Transaction, a: Account, ref: nat)
    ensures Other(l + [t], a, ref) == Other(l, a, ref) + if Foreign(t) then Moved(t.postings, a, ref) else 0
  {
    assert (l + [t])[..|l + [t]| - 1] == l;
  }

  lemma Appended(l: seq<Transaction>, t: Transaction, d: nat)
    requires !Foreign(t) && Balanced(t.postings)
    ensures Shift(l, l + [t], d, Moved(t.postings, Developer, d), Moved(t.postings, Escrow, d),
      Moved(t.postings, Provider, d))
  {
    hide Balance, Moved, Balanced, Other, Foreign;
    BalanceAppend(l, t, Developer, d);
    BalanceAppend(l, t, Escrow, d);
    BalanceAppend(l, t, Provider, d);
    OtherAppend(l, t, Developer, d);
    OtherAppend(l, t, Escrow, d);
    OtherAppend(l, t, Provider, d);
  }

  lemma Unmoved(l: seq<Transaction>, d: nat)
    ensures Shift(l, l, d, 0, 0, 0)
  {}

  lemma HoldShift(l: seq<Transaction>, dev: nat, amount: nat, d: nat)
    ensures Balanced(HoldTx(dev, amount).postings)
    ensures
      var mine := if d == dev then amount else 0;
      Shift(l, l + [HoldTx(dev, amount)], d, 0 - mine, mine, 0)
  {
    hide Balance, Moved, Balanced, Other, Shift;
    var t := HoldTx(dev, amount);
    TransferMoves(t, InferenceHold, None, Developer, Some(dev), Escrow, Some(dev), amount, Developer, d);
    TransferMoves(t, InferenceHold, None, Developer, Some(dev), Escrow, Some(dev), amount, Escrow, d);
    TransferMoves(t, InferenceHold, None, Developer, Some(dev), Escrow, Some(dev), amount, Provider, d);
    Appended(l, t, d);
  }

  lemma ReturnPostings(dev: nat, amount: nat, a: Account, d: nat)
    ensures Balanced(ReturnTx(dev, amount).postings)
    ensures Moved(ReturnTx(dev, amount).postings, a, d) ==
      if d != dev then 0 else if a == Developer then amount else if a == Escrow then 0 - amount else 0
  {
    hide Moved, Balanced;
    TransferMoves(ReturnTx(dev, amount), InferenceRelease, None, Escrow, Some(dev), Developer, Some(dev), amount, a, d);
  }

  lemma ReturnShift(l: seq<Transaction>, dev: nat, held: nat, d: nat)
    ensures
      var mine := if d == dev then held else 0;
      Shift(l, ReturnHold(l, dev, held), d, mine, 0 - mine, 0)
  {
    hide Balance, Moved, Balanced, Other, Shift, ReturnTx;
    Unmoved(l, d);
    ReturnPostings(dev, held, Developer, d);
    ReturnPostings(dev, held, Escrow, d);
    ReturnPostings(dev, held, Provider, d);
    if held > 0 { ReturnIs(dev, held); Appended(l, ReturnTx(dev, held), d); }
  }

  lemma ReturnIs(dev: nat, held: nat)
    ensures !Foreign(ReturnTx(dev, held))
  {}

  lemma UsagePostings(bps: nat, dev: nat, provider: nat, cost: nat, a: Account, who: nat)
    requires bps <= BPS
    ensures
      var t := UsageTx(bps, dev, provider, cost);
      && Balanced(t.postings)
      && Moved(t.postings, a, who) ==
           (if a == Provider && who == provider then cost - Cut(bps, cost) else 0)
             - (if a == Developer && who == dev then cost else 0)
  {
    hide Cut;
    var fee := Cut(bps, cost);
    CutBounds(bps, cost);
    var d, c, p := Debit(Developer, cost, Some(dev)), Credit(Provider, cost - fee, Some(provider)),
      Credit(Protocol, fee, None);
    var ps := UsageTx(bps, dev, provider, cost).postings;
    Leg(p, [], a, who);
    Leg(c, [p], a, who);
    Leg(c, [], a, who);
    Leg(d, [c, p], a, who);
    Leg(d, [c], a, who);
    assert [p] + [] == [p] && [c] + [] == [c] && [c] + [p] == [c, p];
    assert ps == if fee > 0 then [d] + [c, p] else [d] + [c];
  }

  lemma CutBounds(bps: nat, cost: nat)
    requires bps <= BPS
    ensures 0 <= Cut(bps, cost) <= cost
  {
    FeeBounds(ToUnits(cost), bps);
  }

  lemma ChargeShift(bps: nat, l: seq<Transaction>, dev: nat, provider: nat, raw: real, d: nat)
    requires bps <= BPS
    ensures
      var c := Charge(bps, l, dev, provider, raw);
      var cost := AtLeastZero(Quantize(raw));
      && (c.Some? <==> cost == 0 || Balance(l, Developer, dev) >= cost)
      && (c.Some? ==>
        && c.value.1 == cost
        && Shift(l, c.value.0, d, if d == dev then 0 - cost else 0, 0,
          if d == provider then cost - Cut(bps, cost) else 0))
  {
    hide Balance, Moved, Balanced, Other, Shift, Cut, Quantize;
    var cost := AtLeastZero(Quantize(raw));
    Unmoved(l, d);
    CutBounds(bps, 0);
    UsagePostings(bps, dev, provider, cost, Developer, d);
    UsagePostings(bps, dev, provider, cost, Escrow, d);
    UsagePostings(bps, dev, provider, cost, Provider, d);
    Appended(l, UsageTx(bps, dev, provider, cost), d);
  }

  // ---- closing a hold ------------------------------------------------------------------------------

  /** A resolution moves a hold's share to what its new status stands for. */
  ghost predicate Resolves(bps: nat, l: seq<Transaction>, m: seq<Transaction>, h: Hold, status: Status, d: nat) {
    var k := h.(status := status);
    Shift(l, m, d, if d == h.dev then h.held - Taken(k) else 0, if d == h.dev then InEscrow(k) - h.held else 0,
      Earned(bps, k, d))
  }

  lemma HandleResolves(bps: nat, l: seq<Transaction>, h: Hold, provider: nat, r: Resolution, d: nat)
    requires bps <= BPS
    ensures
      var (m, status) := Handle(bps, l, h.dev, h.held, provider, r);
      Resolves(bps, l, m, h, status, d)
  {
    hide Balance, Charge, ReturnHold, Other, LedgerOk, Cut;
    var back := ReturnHold(l, h.dev, h.held);
    ReturnShift(l, h.dev, h.held, d);
    if r.Bill? {
      ChargeShift(bps, back, h.dev, provider, r.actual, d);
      ReturnShift(back, h.dev, h.held, d);
    }
  }

  lemma TryResolves(bps: nat, l: seq<Transaction>, h: Hold, provider: nat, c: Closing, d: nat)
    requires bps <= BPS
    ensures
      var (m, status) := FirstTry(bps, l, h.dev, h.held, provider, c);
      Resolves(bps, l, m, h, status, d)
  {
    hide Balance, Charge, ReturnHold, Other, LedgerOk, Cut;
    var back := ReturnHold(l, h.dev, h.held);
    ReturnShift(l, h.dev, h.held, d);
    Unmoved(l, d);
    if c.first.Bill? { ChargeShift(bps, back, h.dev, provider, c.first.actual, d); }
  }

  /** However a request ends, it bills between nothing and the ceiling its gate priced, and a second try no more. */
  lemma ClosingWithin(r: Request, e: Ending)
    requires Proper(r, e)
    ensures
      var c := ClosingOf(r, e);
      && (c.first.Bill? ==> 0.0 <= c.first.actual <= Ceiling(r))
      && (c.again.Some? ==> c.again.value <= Ceiling(r))
  {
    hide Unary, Closed, WorstCase, ImageCost;
    CeilingAtLeastZero(r);
    match e {
      case Replied(payload) => UnaryWithin(r.terms, payload);
      case Stream(frames, tail, patience) => StreamedWithin(r.terms, frames, tail, patience);
      case Stored(urls) => ImageCostMonotone(r.spec, Min(urls, r.images), r.images);
      case _ =>
    }
  }

  lemma CeilingAtLeastZero(r: Request)
    ensures Ceiling(r) >= 0.0
  {
    match r {
      case Chat(t) => ChatCostMonotone(t.spec, t.prompt, t.maxOutput, t.prompt, t.maxOutput);
      case Image(spec, n) => ImageCostMonotone(spec, n, n);
    }
  }

  /** Half-up rounding is monotone, so a charge under the ceiling fits the hold. */
  lemma ChargeFits(actual: real, ceiling: real)
    requires actual <= ceiling && ceiling >= 0.0
    ensures AtLeastZero(Quantize(actual)) <= AtLeastZero(Quantize(ceiling))
    ensures AtLeastZero(Quantize(actual)) as real <= (ceiling + 0.5) * TICKS_PER_UNIT as real
  {
    HalfUpMonotone(actual, ceiling);
    HalfUpIs(actual, HalfUp(actual));
  }

  lemma TryOk(bps: nat, l: seq<Transaction>, h: Hold, provider: nat, c: Closing)
    requires bps <= BPS && HoldOk(h)
    requires c.first.Bill? ==> c.first.actual <= Ceiling(h.request)
    requires c.again.Some? ==> c.again.value <= Ceiling(h.request)
    ensures HoldOk(h.(status := FirstTry(bps, l, h.dev, h.held, provider, c).1))
    ensures HoldOk(h.(status := Handle(bps, l, h.dev, h.held, provider, c.first).1))
  {
    hide Charge, ReturnHold, Quantize, Ceiling, Shift;
    CeilingAtLeastZero(h.request);
    if c.first.Bill? {
      ChargeFits(c.first.actual, Ceiling(h.request));
      ChargeShift(bps, ReturnHold(l, h.dev, h.held), h.dev, provider, c.first.actual, h.dev);
    }
  }

  // ---- the steps --------------------------------------------------------------------------------------

  lemma FinishResolves(bps: nat, w: World, i: nat, provider: nat, e: Ending, d: nat)
    requires bps <= BPS && i < |w.holds| && w.holds[i].status.Open? && Proper(w.holds[i].request, e)
    ensures
      var w' := DoFinish(bps, w, i, provider, e);
      Resolves(bps, w.ledger, w'.ledger, w.holds[i], w'.holds[i].status, d)
  {
    hide Resolves, Handle, FirstTry, ClosingOf;
    var h := w.holds[i];
    HandleResolves(bps, w.ledger, h, provider, ClosingOf(h.request, e).first, d);
    TryResolves(bps, w.ledger, h, provider, ClosingOf(h.request, e), d);
  }

  lemma RetryResolves(bps: nat, w: World, i: nat, d: nat)
    requires bps <= BPS && i < |w.holds| && w.holds[i].status.Retrying?
    ensures
      var w' := DoRetry(bps, w, i);
      Resolves(bps, w.ledger, w'.ledger, w.holds[i], w'.holds[i].status, d)
  {
    hide Resolves, FirstTry;
    var h := w.holds[i];
    var c := Closing(if h.status.partial > 0.0 then Bill(h.status.partial) else Release, None);
    TryResolves(bps, w.ledger, h, h.status.provider, c, d);
  }

  lemma CloseCounts(bps: nat, holds: seq<Hold>, i: nat, h: Hold, d: nat)
    requires i < |holds| && h.dev == holds[i].dev
    ensures Sum(holds[i := h], EscrowOf(d)) == Sum(holds, EscrowOf(d)) - EscrowOf(d)(holds[i]) + EscrowOf(d)(h)
    ensures Sum(holds[i := h], TakenOf(d)) == Sum(holds, TakenOf(d)) - TakenOf(d)(holds[i]) + TakenOf(d)(h)
    ensures Sum(holds[i := h], EarnedOf(bps, d)) ==
      Sum(holds, EarnedOf(bps, d)) - EarnedOf(bps, d)(holds[i]) + EarnedOf(bps, d)(h)
  {
    SumUpdate(holds, i, h, EscrowOf(d));
    SumUpdate(holds, i, h, TakenOf(d));
    SumUpdate(holds, i, h, EarnedOf(bps, d));
  }

  /** Closing an unresolved hold keeps the books. */
  lemma ClosedInv(bps: nat, w: World, i: nat, m: seq<Transaction>, status: Status)
    requires Inv(bps, w) && i < |w.holds| && (w.holds[i].status.Open? || w.holds[i].status.Retrying?)
    requires HoldOk(w.holds[i].(status := status))
    requires forall d: nat :: Resolves(bps, w.ledger, m, w.holds[i], status, d)
    ensures Inv(bps, World(m, w.holds[i := w.holds[i].(status := status)]))
  {
    hide Balance, Other, HoldOk, Cut, Sum;
    var h := w.holds[i].(status := status);
    var w' := World(m, w.holds[i := h]);
    assert Resolves(bps, w.ledger, m, w.holds[i], status, 0);
    forall d: nat ensures DevOk(w', d) && ProviderOk(bps, w', d) {
      assert DevOk(w, d) && ProviderOk(bps, w, d);
      assert Resolves(bps, w.ledger, m, w.holds[i], status, d);
      CloseCounts(bps, w.holds, i, h, d);
    }
  }

  lemma FinishInv(bps: nat, w: World, i: nat, provider: nat, e: Ending)
    requires bps <= BPS && Inv(bps, w)
    ensures Inv(bps, DoFinish(bps, w, i, provider, e))
  {
    hide Inv, HoldOk, Resolves, Handle, FirstTry, ClosingOf, Proper;
    if i < |w.holds| && w.holds[i].status.Open? && Proper(w.holds[i].request, e) {
      var h, w' := w.holds[i], DoFinish(bps, w, i, provider, e);
      HoldIn(bps, w, i);
      ClosingWithin(h.request, e);
      TryOk(bps, w.ledger, h, provider, ClosingOf(h.request, e));
      forall d: nat ensures Resolves(bps, w.ledger, w'.ledger, h, w'.holds[i].status, d) {
        FinishResolves(bps, w, i, provider, e, d);
      }
      ClosedInv(bps, w, i, w'.ledger, w'.holds[i].status);
    }
  }

  lemma HoldIn(bps: nat, w: World, i: nat)
    requires Inv(bps, w) && i < |w.holds|
    ensures HoldOk(w.holds[i]) && DevOk(w, w.holds[i].dev)
  {}

  lemma RetryInv(bps: nat, w: World, i: nat)
    requires bps <= BPS && Inv(bps, w)
    ensures Inv(bps, DoRetry(bps, w, i))
  {
    hide Inv, Resolves, FirstTry;
    if i < |w.holds| && w.holds[i].status.Retrying? {
      var h, w' := w.holds[i], DoRetry(bps, w, i);
      HoldIn(bps, w, i);
      TryOk(bps, w.ledger, h, h.status.provider,
        Closing(if h.status.partial > 0.0 then Bill(h.status.partial) else Release, None));
      forall d: nat ensures Resolves(bps, w.ledger, w'.ledger, h, w'.holds[i].status, d) {
        RetryResolves(bps, w, i, d);
      }
      ClosedInv(bps, w, i, w'.ledger, w'.holds[i].status);
    }
  }

  lemma BeginInv(bps: nat, w: World, dev: nat, r: Request)
    requires Inv(bps, w)
    ensures Inv(bps, DoBegin(w, dev, r))
  {
    hide Balance, Balanced, Other, Quantize, Ceiling, Sum, EscrowOf, TakenOf, EarnedOf;
    var w', amount := DoBegin(w, dev, r), AtLeastZero(Quantize(Ceiling(r)));
    var h := Hold(dev, r, amount, Open);
    if w' != w {
      assert w'.holds == w.holds + [h];
      HoldShift(w.ledger, dev, amount, dev);
      forall d: nat ensures DevOk(w', d) && ProviderOk(bps, w', d) {
        assert DevOk(w, d) && ProviderOk(bps, w, d);
        OpenCounts(bps, w.holds, h, d);
        HoldShift(w.ledger, dev, amount, d);
      }
    }
  }

  lemma OpenCounts(bps: nat, holds: seq<Hold>, h: Hold, d: nat)
    requires h.status.Open?
    ensures Sum(holds + [h], EscrowOf(d)) == Sum(holds, EscrowOf(d)) + if h.dev == d then h.held else 0
    ensures Sum(holds + [h], TakenOf(d)) == Sum(holds, TakenOf(d)) + if h.dev == d then h.held else 0
    ensures Sum(holds + [h], EarnedOf(bps, d)) == Sum(holds, EarnedOf(bps, d))
  {
    SumAppend(holds, h, EscrowOf(d));
    SumAppend(holds, h, TakenOf(d));
    SumAppend(holds, h, EarnedOf(bps, d));
  }

  lemma PostInv(bps: nat, w: World, t: Transaction)
    requires Inv(bps, w) && Foreign(t) && Balanced(t.postings)
    ensures Inv(bps, w.(ledger := w.ledger + [t]))
  {
    hide Balance, Balanced, Other, HoldOk, Foreign, Sum;
    var w' := w.(ledger := w.ledger + [t]);
    forall d: nat ensures DevOk(w', d) && ProviderOk(bps, w', d) {
      assert DevOk(w, d) && ProviderOk(bps, w, d);
      BalanceAppend(w.ledger, t, Developer, d);
      BalanceAppend(w.ledger, t, Escrow, d);
      BalanceAppend(w.ledger, t, Provider, d);
      OtherAppend(w.ledger, t, Developer, d);
      OtherAppend(w.ledger, t, Escrow, d);
      OtherAppend(w.ledger, t, Provider, d);
    }
  }

  lemma DepositForeign(dev: nat, amount: nat, d: nat)
    ensures Foreign(DepositTx(dev, amount)) && Balanced(DepositTx(dev, amount).postings)
    ensures Moved(DepositTx(dev, amount).postings, Developer, d) == if d == dev then amount else 0
  {
    hide Moved, Balanced;
    TransferMoves(DepositTx(dev, amount), TopUp, None, Protocol, None, Developer, Some(dev), amount, Developer, d);
  }

  lemma StepInv(bps: nat, w: World, s: Step)
    requires bps <= BPS && Inv(bps, w)
    ensures Inv(bps, Next(bps, w, s))
  {
    hide Inv, DoBegin, DoFinish, DoRetry, Foreign, Balanced, DepositTx;
    match s {
      case Deposit(dev, raw) =>
        var amount := AtLeastZero(Quantize(raw));
        DepositForeign(dev, amount, dev);
        PostInv(bps, w, DepositTx(dev, amount));
      case Begin(dev, request) => BeginInv(bps, w, dev, request);
      case Finish(i, provider, ending) => FinishInv(bps, w, i, provider, ending);
      case Retry(i) => RetryInv(bps, w, i);
      case Post(t) => if Foreign(t) && Balanced(t.postings) { PostInv(bps, w, t); }
    }
  }

  lemma {:induction false} RunInv(bps: nat, w: World, steps: seq<Step>)
    requires bps <= BPS && Inv(bps, w)
    ensures Inv(bps, Run(bps, w, steps))
    decreases |steps|
  {
    hide Inv, Next;
    if steps != [] {
      StepInv(bps, w, steps[0]);
      RunInv(bps, Next(bps, w, steps[0]), steps[1..]);
    }
  }

  lemma EmptyInv(bps: nat)
    ensures Inv(bps, EMPTY)
  {}

  /**
   Over every interleaving, whatever other components post: a developer's escrow is theirs plus
   what the holds keep there, its balance is theirs less what the holds took, providers have
   earned the charges net of the fee, every charge fits its hold and tops the raw ceiling by
   half a unit at most, and nothing is created. Holds returned twice or stranded are counted.
   */
  lemma HoldsExact(bps: nat, steps: seq<Step>)
    requires bps <= BPS
    ensures
      var w := Run(bps, EMPTY, steps);
      && LedgerOk(w.ledger) && Everything(w.ledger) == 0
      && (forall d: nat :: DevOk(w, d))
      && (forall p: nat :: ProviderOk(bps, w, p))
      && (forall i :: 0 <= i < |w.holds| ==> HoldOk(w.holds[i]))
  {
    hide Run;
    EmptyInv(bps);
    RunInv(bps, EMPTY, steps);
    NothingCreated(Run(bps, EMPTY, steps).ledger);
  }

  // ---- a resolved hold is final -----------------------------------------------------------------------

  predicate Done(h: Hold) { !h.status.Open? && !h.status.Retrying? }

  lemma StepKeepsDone(bps: nat, w: World, s: Step, i: nat)
    requires i < |w.holds|
    ensures
      var w' := Next(bps, w, s);
      && i < |w'.holds| && w'.holds[i].dev == w.holds[i].dev && w'.holds[i].held == w.holds[i].held
      && (Done(w.holds[i]) ==> w'.holds[i] == w.holds[i])
  {
    hide Balance, Quantize, Ceiling, Resolve, SecondTry, Proper;
  }

  /** A request is resolved once: a closed hold never changes again, and none is forgotten. */
  lemma {:induction false} ResolvedOnce(bps: nat, w: World, steps: seq<Step>, i: nat)
    requires i < |w.holds|
    ensures
      var w' := Run(bps, w, steps);
      && i < |w'.holds| && w'.holds[i].dev == w.holds[i].dev && w'.holds[i].held == w.holds[i].held
      && (Done(w.holds[i]) ==> w'.holds[i] == w.holds[i])
    decreases |steps|
  {
    hide Next;
    if steps != [] {
      StepKeepsDone(bps, w, steps[0], i);
      ResolvedOnce(bps, Next(bps, w, steps[0]), steps[1..], i);
    }
  }
}
