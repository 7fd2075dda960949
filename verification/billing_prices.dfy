/** What the gate holds and what a request is charged, as numbers. */
module BillingPrices {
  import opened Common
  import opened Money
  import opened Ledger
  import opened NodeUsage
  import opened Streaming
  import opened Billing
  import opened BillingTheorems

  /** The nearest whole token unit to a raw amount, a half counting up. */
  predicate Nearest(raw: real, units: nat) { units as real - 0.5 <= raw < units as real + 0.5 }

  /** The most a request can cost: its prompt and every token it may produce, or every image it asks for. */
  function Most(r: Request): real {
    match r
    case Chat(t) => t.spec.input * t.prompt as real + t.spec.output * t.maxOutput as real
    case Image(spec, n) => spec.image * n as real
  }

  lemma RoundIs(raw: real, units: nat)
    requires raw >= 0.0 && Nearest(raw, units)
    ensures AtLeastZero(Quantize(raw)) == 100 * units
  {
    HalfUpIs(raw, units);
  }

  lemma MostIs(r: Request)
    ensures Ceiling(r) == Most(r) >= 0.0
  {
    match r {
      case Chat(t) =>
        ChatCostMonotone(t.spec, t.prompt, t.maxOutput, t.prompt, t.maxOutput);
      case Image(spec, n) => ImageCostMonotone(spec, n, n);
    }
  }

  /** The gate refuses exactly when the balance is short of the rounded most, and else holds exactly that. */
  lemma GateHolds(bps: nat, w: World, dev: nat, r: Request, units: nat, d: nat)
    requires Nearest(Most(r), units)
    ensures
      var w' := Next(bps, w, Begin(dev, r));
      var moved := if d == dev then 100 * units else 0;
      if Balance(w.ledger, Developer, dev) < 100 * units && units > 0 then w' == w
      else
        && w'.holds == w.holds + [Hold(dev, r, 100 * units, Open)]
        && Balance(w'.ledger, Developer, d) == Balance(w.ledger, Developer, d) - moved
        && Balance(w'.ledger, Escrow, d) == Balance(w.ledger, Escrow, d) + moved
  {
    hide Balance, Ceiling, Most, Quantize, Other;
    MostIs(r);
    RoundIs(Most(r), units);
    HoldShift(w.ledger, dev, 100 * units, d);
  }

  /** An image request is billed for the images kept, never more than it asked for. */
  lemma ImageBilled(spec: Spec, n: nat, kept: nat)
    ensures ClosingOf(Image(spec, n), Stored(kept)) ==
      Closing(Bill(spec.image * (if kept <= n then kept else n) as real), None)
  {
    assert Max(Min(kept, n), 0) == if kept <= n then kept else n;
  }

  /** A request that never reached a node is released. */
  lemma UndispatchedReleased(r: Request)
    ensures ClosingOf(r, NoNode) == ClosingOf(r, NotDispatched) == Closing(Release, None)
  {}

  /** The protocol's cut of a charge of `units`: the nearest whole unit to its share. */
  lemma CutIs(bps: nat, units: nat, cut: int)
    requires 20_000 * cut - 10_000 <= 2 * units * bps < 20_000 * cut + 10_000
    ensures Cut(bps, 100 * units) == 100 * cut
  {
    UnitsIs(100 * units, units);
    FeeIs(units, bps, cut);
  }

  /**
   A charge goes through exactly when the balance covers the nearest whole units, and then the
   developer pays them, the provider earns all but the cut, and nobody else moves.
   */
  lemma ChargeMoves(bps: nat, l: seq<Transaction>, dev: nat, provider: nat, raw: real, units: nat, cut: int, d: nat)
    requires bps <= BPS && raw >= 0.0 && Nearest(raw, units)
    requires 20_000 * cut - 10_000 <= 2 * units * bps < 20_000 * cut + 10_000
    ensures
      var c := Charge(bps, l, dev, provider, raw);
      && (c.None? <==> units > 0 && Balance(l, Developer, dev) < 100 * units)
      && (c.Some? ==>
        && c.value.1 == 100 * units
        && Balance(c.value.0, Developer, d) == Balance(l, Developer, d) - (if d == dev then 100 * units else 0)
        && Balance(c.value.0, Provider, d) ==
          Balance(l, Provider, d) + (if d == provider then 100 * (units - cut) else 0)
        && Balance(c.value.0, Escrow, d) == Balance(l, Escrow, d))
  {
    hide Balance, UsageTx, Cut, Quantize;
    RoundIs(raw, units);
    CutIs(bps, units, cut);
    if units == 0 { NoCut(bps, cut); }
    var t := UsageTx(bps, dev, provider, 100 * units);
    UsagePostings(bps, dev, provider, 100 * units, Developer, d);
    UsagePostings(bps, dev, provider, 100 * units, Provider, d);
    UsagePostings(bps, dev, provider, 100 * units, Escrow, d);
    BalanceAppend(l, t, Developer, d);
    BalanceAppend(l, t, Provider, d);
    BalanceAppend(l, t, Escrow, d);
  }

  lemma NoCut(bps: nat, cut: int)
    requires 20_000 * cut - 10_000 <= 2 * 0 * bps < 20_000 * cut + 10_000
    ensures cut == 0
  {}

  /** A deposit credits its developer the nearest whole units, and nobody else. */
  lemma DepositCredits(bps: nat, w: World, dev: nat, raw: real, units: nat, d: nat)
    requires raw >= 0.0 && Nearest(raw, units)
    ensures
      var w' := Next(bps, w, Deposit(dev, raw));
      && w'.holds == w.holds
      && Balance(w'.ledger, Developer, d) == Balance(w.ledger, Developer, d) + (if d == dev then 100 * units else 0)
      && Balance(w'.ledger, Escrow, d) == Balance(w.ledger, Escrow, d)
  {
    hide Balance, Quantize, Moved;
    RoundIs(raw, units);
    var t := DepositTx(dev, 100 * units);
    TransferMoves(t, TopUp, None, Protocol, None, Developer, Some(dev), 100 * units, Developer, d);
    TransferMoves(t, TopUp, None, Protocol, None, Developer, Some(dev), 100 * units, Escrow, d);
    BalanceAppend(w.ledger, t, Developer, d);
    BalanceAppend(w.ledger, t, Escrow, d);
  }
}
