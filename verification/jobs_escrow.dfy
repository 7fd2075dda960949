/** The money of jobs: escrow is exactly the holds of jobs not yet settled, and each hold splits exactly. */
module JobsEscrow {
  import opened Common
  import opened Money
  import opened Ledger
  import opened Quorum
  import opened Jobs
  import opened JobsSafety
  import opened JobsTheorems
  import opened JobsLiveness

  /** A posting tagged with the given job, or with any job. */
  predicate Tags(t: Transaction, which: Option<nat>) { t.job.Some? && (which.None? || t.job == which) }

  /** What the tagged postings moved on one owner's account. */
  function Tagged(l: seq<Transaction>, which: Option<nat>, a: Account, ref: nat): int {
    if l == [] then 0
    else Tagged(l[..|l| - 1], which, a, ref) + if Tags(l[|l| - 1], which) then Moved(l[|l| - 1].postings, a, ref) else 0
  }

  lemma TaggedAppend(l: seq<Transaction>, t: Transaction, which: Option<nat>, a: Account, ref: nat)
    ensures Tagged(l + [t], which, a, ref) ==
      Tagged(l, which, a, ref) + if Tags(t, which) then Moved(t.postings, a, ref) else 0
  {
    assert (l + [t])[..|l + [t]| - 1] == l;
  }

  lemma {:induction false} TaggedConcat(l: seq<Transaction>, m: seq<Transaction>, which: Option<nat>, a: Account,
      ref: nat)
    ensures Tagged(l + m, which, a, ref) == Tagged(l, which, a, ref) + Tagged(m, which, a, ref)
    decreases |m|
  {
    if m == [] {
      assert l + m == l;
    } else {
      var n := |m| - 1;
      TaggedConcat(l, m[..n], which, a, ref);
      assert m == m[..n] + [m[n]] && l + m == (l + m[..n]) + [m[n]];
      TaggedAppend(l + m[..n], m[n], which, a, ref);
      TaggedAppend(m[..n], m[n], which, a, ref);
    }
  }

  // ---- what each posting list moves -----------------------------------------------------------

  ghost predicate Fits(txs: seq<Transaction>, id: nat) {
    LedgerOk(txs) && forall i :: 0 <= i < |txs| ==> txs[i].job == Some(id)
  }

  /** A list of at most one transfer tagged with a job. */
  lemma OneTransfer(txs: seq<Transaction>, reason: Reason, id: nat, src: Account, srcRef: Option<nat>, dst: Account,
      dstRef: Option<nat>, amount: nat, which: Option<nat>, a: Account, ref: nat)
    requires txs == if amount == 0 then [] else [Transfer(reason, Some(id), src, srcRef, dst, dstRef, amount)]
    ensures Fits(txs, id)
    ensures Tagged(txs, which, a, ref) ==
      if which.Some? && which.value != id then 0
      else
        (if dst == a && dstRef == Some(ref) then amount else 0)
        - (if src == a && srcRef == Some(ref) then amount else 0)
  {
    hide Moved, Balanced;
    if amount > 0 {
      var t := Transfer(reason, Some(id), src, srcRef, dst, dstRef, amount);
      TransferMoves(t, reason, Some(id), src, srcRef, dst, dstRef, amount, a, ref);
      TaggedAppend([], t, which, a, ref);
      assert [] + [t] == [t];
    }
  }

  lemma PayPostings(id: nat, dev: nat, provider: nat, cost: nat, fee: nat, a: Account, ref: nat)
    requires 0 < cost && fee <= cost
    ensures
      var t := PayTxs(id, dev, provider, cost, fee)[0];
      && Balanced(t.postings)
      && Moved(t.postings, a, ref) ==
           (if a == Provider && ref == provider then cost - fee else 0)
             - (if a == Escrow && ref == dev then cost else 0)
  {
    var e, n, f := Debit(Escrow, cost, Some(dev)), Credit(Provider, cost - fee, Some(provider)),
      Credit(Protocol, fee, None);
    var ps := PayTxs(id, dev, provider, cost, fee)[0].postings;
    Leg(f, [], a, ref);
    Leg(n, [], a, ref);
    Leg(n, [f], a, ref);
    Leg(e, [n, f], a, ref);
    Leg(e, [n], a, ref);
    Leg(e, [f], a, ref);
    assert [f] + [] == [f] && [n] + [] == [n] && [n] + [f] == [n, f];
    assert ps == if fee == 0 then [e] + [n] else if fee == cost then [e] + [f] else [e] + [n, f];
  }

  lemma PayMoves(id: nat, dev: nat, provider: nat, cost: nat, fee: nat, which: Option<nat>, a: Account, ref: nat)
    requires fee <= cost
    ensures
      var txs := PayTxs(id, dev, provider, cost, fee);
      && Fits(txs, id)
      && Tagged(txs, which, a, ref) ==
        if which.Some? && which.value != id then 0
        else
          (if a == Provider && ref == provider then cost - fee else 0)
          - (if a == Escrow && ref == dev then cost else 0)
  {
    hide Moved, Balanced;
    if cost > 0 {
      var t := PayTxs(id, dev, provider, cost, fee)[0];
      PayPostings(id, dev, provider, cost, fee, a, ref);
      TaggedAppend([], t, which, a, ref);
      assert [] + [t] == PayTxs(id, dev, provider, cost, fee);
    }
  }

  /** The parts a finalization splits a hold into. */
  datatype Split = Split(net: nat, fee: nat, refund: nat, payee: Option<nat>)

  function SplitOf(cfg: Config, j: Job, duration: real): Split
    requires cfg.Valid() && Billed(j)
  {
    if j.status == Completed && Winner(j).Some? then
      var cost := CostOf(cfg, j, duration);
      FeeBounds(cost, cfg.bps);
      Split(cost - Fee(cost, cfg.bps), Fee(cost, cfg.bps), j.escrow.value - cost, Some(Winner(j).value.provider))
    else Split(0, 0, j.escrow.value, None)
  }

  lemma FitsConcat(a: seq<Transaction>, b: seq<Transaction>, id: nat)
    requires Fits(a, id) && Fits(b, id)
    ensures Fits(a + b, id)
  {
    hide Balanced;
  }

  /** What settling moves on an account other than the protocol's. */
  function Delta(j: Job, s: Split, data: nat, a: Account, ref: nat): int
    requires Billed(j)
  {
    if a == Escrow && ref == j.dev then 0 - j.escrow.value
    else if a == Provider && s.payee == Some(ref) then s.net
    else if a == Developer && ref == j.dev then s.refund - (if s.payee.Some? then data else 0)
    else 0
  }

  lemma PaidMoves(cfg: Config, id: nat, j: Job, duration: real, data: nat, which: Option<nat>, a: Account, ref: nat)
    requires cfg.Valid() && Billed(j) && a != Protocol && j.status == Completed && Winner(j).Some?
    ensures
      var txs, s := SettleTxs(cfg, id, j, duration, data), SplitOf(cfg, j, duration);
      && Fits(txs, id)
      && Tagged(txs, which, a, ref) == if which.Some? && which.value != id then 0 else Delta(j, s, data, a, ref)
  {
    hide Winner, Fee, CostOf, PayTxs, RefundTxs, DataTxs, Tagged, Fits;
    var s := SplitOf(cfg, j, duration);
    var cost := CostOf(cfg, j, duration);
    CostFits(cfg, j, duration);
    var pay := PayTxs(id, j.dev, s.payee.value, cost, s.fee);
    var refund, moved := RefundTxs(id, j.dev, s.refund), DataTxs(id, j.dev, data);
    PayMoves(id, j.dev, s.payee.value, cost, s.fee, which, a, ref);
    RefundMoves(id, j.dev, s.refund, which, a, ref);
    DataMoves(id, j.dev, data, which, a, ref);
    TaggedConcat(pay + refund, moved, which, a, ref);
    TaggedConcat(pay, refund, which, a, ref);
    FitsConcat(pay, refund, id);
    FitsConcat(pay + refund, moved, id);
  }

  lemma RefundMoves(id: nat, dev: nat, amount: nat, which: Option<nat>, a: Account, ref: nat)
    ensures Fits(RefundTxs(id, dev, amount), id)
    ensures Tagged(RefundTxs(id, dev, amount), which, a, ref) ==
      if (which.Some? && which.value != id) || ref != dev then 0
      else if a == Developer then amount else if a == Escrow then 0 - amount else 0
  {
    hide Tagged, Fits;
    OneTransfer(RefundTxs(id, dev, amount), JobRefund, id, Escrow, Some(dev), Developer, Some(dev), amount, which, a,
      ref);
  }

  lemma HoldMoves(id: nat, dev: nat, amount: nat, which: Option<nat>, a: Account, ref: nat)
    ensures Fits(HoldTxs(id, dev, amount), id)
    ensures Tagged(HoldTxs(id, dev, amount), which, a, ref) ==
      if (which.Some? && which.value != id) || ref != dev then 0
      else if a == Escrow then amount else if a == Developer then 0 - amount else 0
  {
    hide Tagged, Fits;
    OneTransfer(HoldTxs(id, dev, amount), EscrowHold, id, Developer, Some(dev), Escrow, Some(dev), amount, which, a,
      ref);
  }

  lemma DataMoves(id: nat, dev: nat, amount: nat, which: Option<nat>, a: Account, ref: nat)
    requires a != Protocol
    ensures Fits(DataTxs(id, dev, amount), id)
    ensures Tagged(DataTxs(id, dev, amount), which, a, ref) ==
      if (which.Some? && which.value != id) || ref != dev || a != Developer then 0 else 0 - amount
  {
    hide Tagged, Fits;
    OneTransfer(DataTxs(id, dev, amount), DataCost, id, Developer, Some(dev), Protocol, None, amount, which, a, ref);
  }

  lemma CostChosen(cfg: Config, j: Job, duration: real)
    requires cfg.Valid() && Billed(j)
    ensures
      var price := ComputeCost(cfg, j.resources, duration);
      CostOf(cfg, j, duration) == if price <= j.escrow.value then price else j.escrow.value
  {
    hide ComputeCost;
  }

  /**
   Settling splits the hold exactly: escrow loses all of it, the winner gets the net, the
   developer gets the refund less the data charge, nobody else is touched; without a winner
   the whole hold goes back.
   */
  lemma SettleMoves(cfg: Config, id: nat, j: Job, duration: real, data: nat, which: Option<nat>, a: Account, ref: nat)
    requires cfg.Valid() && Billed(j) && a != Protocol
    ensures
      var txs, s := SettleTxs(cfg, id, j, duration, data), SplitOf(cfg, j, duration);
      var spent := if s.payee.Some? then data else 0;
      && Fits(txs, id)
      && s.net + s.fee + s.refund == j.escrow.value
      && (s.payee.None? ==> s.refund == j.escrow.value)
      && (s.payee.Some? ==>
        var price := ComputeCost(cfg, j.resources, duration);
        s.net + s.fee == if price <= j.escrow.value then price else j.escrow.value)
      && Settled(cfg, j, duration, data).costFinal == Some(s.net + s.fee + spent)
      && Tagged(txs, which, a, ref) == if which.Some? && which.value != id then 0 else Delta(j, s, data, a, ref)
  {
    hide Winner, Fee, CostOf, PayTxs, RefundTxs, DataTxs, Tagged, Fits;
    var s := SplitOf(cfg, j, duration);
    CostChosen(cfg, j, duration);
    if s.payee.Some? {
      PaidMoves(cfg, id, j, duration, data, which, a, ref);
    } else {
      RefundMoves(id, j.dev, s.refund, which, a, ref);
    }
  }

  /**
   The price of a run: the core-minute price times the cores, at least one, times four with a
   GPU, times the minutes, to the nearest tick; no time costs nothing.
   */
  lemma CostIs(cfg: Config, r: Resources, seconds: real)
    ensures
      var cost := ComputeCost(cfg, r, seconds);
      var cores := if r.cpu < 1 then 1 else r.cpu;
      var weight := if r.gpu then 4.0 else 1.0;
      if seconds <= 0.0 then cost == 0
      else (cost as real - 0.5) * 60.0 <= cfg.price * (cores as real * weight) * seconds < (cost as real + 0.5) * 60.0
  {
    var rate := Max(1, r.cpu) as real * (if r.gpu then 4.0 else 1.0);
    var minutes := (if seconds > 0.0 then seconds else 0.0) / 60.0;
    var raw := cfg.price * rate * minutes;
    Scaled(cfg.price * rate, 0.0, minutes);
    HalfUpIs(raw, HalfUp(raw));
    HalfUpMonotone(0.0, raw);
    HalfUpOfInt(0);
    if seconds > 0.0 { Sixty(cfg.price * rate, seconds, minutes); }
  }

  lemma Sixty(rate: real, seconds: real, minutes: real)
    requires minutes == seconds / 60.0
    ensures rate * minutes * 60.0 == rate * seconds
  {
    assert minutes * 60.0 == seconds;
    assert rate * minutes * 60.0 == rate * (minutes * 60.0);
  }

  /** A run no longer than its timeout never costs more than the estimate held for it. */
  lemma CostWithinEstimate(cfg: Config, r: Resources, seconds: real, timeout: real)
    requires seconds <= timeout
    ensures ComputeCost(cfg, r, seconds) <= ComputeCost(cfg, r, timeout)
    ensures seconds <= 0.0 ==> ComputeCost(cfg, r, seconds) == 0
  {
    var rate := cfg.price * (Max(1, r.cpu) as real * (if r.gpu then 4.0 else 1.0));
    var a := (if seconds > 0.0 then seconds else 0.0) / 60.0;
    var b := (if timeout > 0.0 then timeout else 0.0) / 60.0;
    Scaled(rate, a, b);
    HalfUpMonotone(rate * a, rate * b);
    HalfUpOfInt(0);
  }

  lemma Scaled(rate: real, a: real, b: real)
    requires rate >= 0.0 && 0.0 <= a <= b
    ensures 0.0 <= rate * a <= rate * b && rate * 0.0 == 0.0
  {}

  /** Canaries and unpriced jobs are finalized without a posting. */
  lemma SettleNothing(cfg: Config, id: nat, j: Job, duration: real, data: nat)
    requires !Billed(j)
    ensures SettleTxs(cfg, id, j, duration, data) == [] && Settled(cfg, j, duration, data) == j
  {}

  lemma CostFits(cfg: Config, j: Job, duration: real)
    requires Billed(j)
    ensures CostOf(cfg, j, duration) <= j.escrow.value
  {}
}
