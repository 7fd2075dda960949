/**
 Resolved means buried: a row is confirmed or failed only on the receipt of the hash it stored,
 at the confirmation depth, and a recovery pass resolves exactly the rows that have come so far.
 */
module SettlementDepth {
  import opened Common
  import opened Money
  import opened ChainModel
  import opened Settlement
  import opened SettlementSafety
  import opened SettlementLiveness

  /** A resolved row was mined under the hash it stored, and that block is deep enough. */
  ghost predicate Deep(cfg: Config, c: Chain, r: Row, i: nat) {
    !InFlight(r) ==>
      && i < |c.mined| && r.txHash == Some(c.mined[i].tx.hash)
      && cfg.confirmations + c.mined[i].block <= c.height + 1
  }

  ghost predicate AllDeep(cfg: Config, c: Chain, rows: seq<Row>) {
    forall i :: 0 <= i < |rows| ==> Deep(cfg, c, rows[i], i)
  }

  ghost predicate DepthInv(cfg: Config, w: World) {
    && AllDeep(cfg, w.chain, w.rows)
    && (w.session.Recovering? || w.session.Recorded? ==> AllDeep(cfg, w.chain, w.session.rows))
    && (w.session.Recovering? ==> w.session.latest <= w.chain.height)
  }

  lemma ChainDeep(cfg: Config, w: World, c: Chain)
    requires DepthInv(cfg, w) && w.chain.mined <= c.mined && w.chain.height <= c.height
    ensures DepthInv(cfg, w.(chain := c))
  {
    forall i | 0 <= i < |w.rows| ensures Deep(cfg, c, w.rows[i], i) {
      assert Deep(cfg, w.chain, w.rows[i], i);
    }
    if w.session.Recovering? || w.session.Recorded? {
      var rs := w.session.rows;
      forall i | 0 <= i < |rs| ensures Deep(cfg, c, rs[i], i) {
        assert Deep(cfg, w.chain, rs[i], i);
      }
    }
  }

  lemma SendDeep(cfg: Config, w: World)
    requires DepthInv(cfg, w)
    ensures DepthInv(cfg, DoSend(w))
  {}

  lemma CheckDeep(cfg: Config, w: World)
    requires Inv(cfg, w) && DepthInv(cfg, w)
    ensures DepthInv(cfg, DoCheck(cfg, w))
  {
    var ss := w.session;
    if ss.Recovering? && ss.sent && ss.next < |ss.rows| {
      var i, r := ss.next, ss.rows[ss.next];
      assert RowOk(cfg, w.chain.sent, w.chain.mined, r, i);
      if ReceiptAt(w.chain.mined, r.txHash.value).Some? { ReceiptIsOwn(cfg, w.chain, r, i); }
      assert Deep(cfg, w.chain, Resolve(cfg, w.chain.mined, ss.latest, r), i);
    }
  }

  lemma RecordDeep(cfg: Config, w: World, added: seq<Row>)
    requires DepthInv(cfg, w) && forall k :: 0 <= k < |added| ==> InFlight(added[k])
    ensures DepthInv(cfg, w.(session := Recorded(w.rows + added)))
  {
    var rs := w.rows + added;
    forall i | 0 <= i < |rs| ensures Deep(cfg, w.chain, rs[i], i) {
      if i < |w.rows| { assert Deep(cfg, w.chain, w.rows[i], i); }
    }
  }

  lemma {:induction false} DebitRowsInFlight(cfg: Config, orders: seq<DebitOrder>, base: nat)
    ensures forall k :: 0 <= k < |DebitRows(cfg, orders, base)| ==> InFlight(DebitRows(cfg, orders, base)[k])
    decreases |orders|
  {
    if orders != [] { DebitRowsInFlight(cfg, orders[1..], base + 1); }
  }

  lemma StepDeep(cfg: Config, w: World, s: Step)
    requires Inv(cfg, w) && DepthInv(cfg, w)
    ensures DepthInv(cfg, Next(cfg, w, s))
  {
    hide Inv, Deep, MineBlock, DoSend, DoCheck, DebitRows, Reserved, DebitLive, PlanLegs, PlanDebits, AnyKeyTaken,
      AnyInFlight, BaseNonce, PayeesOf, TotalUnits;
    match s
    case Mine =>
      MineGrows(cfg, w);
      ChainDeep(cfg, w, MineBlock(w.chain));
    case SendRow => SendDeep(cfg, w);
    case CheckRow => CheckDeep(cfg, w);
    case RecordDebits =>
      if w.session.DebitPlanned? {
        var base := BaseNonce(w.chain, w.rows);
        DebitRowsInFlight(cfg, w.session.orders, base);
        RecordDeep(cfg, w, DebitRows(cfg, w.session.orders, base));
      }
    case RecordBatch =>
      if w.session.Numbered? { RecordDeep(cfg, w, BatchRows(cfg, w.session.legs, w.session.base, w.chain.pool)); }
    case Fund(_) => ChainDeep(cfg, w, Next(cfg, w, s).chain);
    case Act(_) => ChainDeep(cfg, w, Next(cfg, w, s).chain);
    case FailNextSend(_) => ChainDeep(cfg, w, Next(cfg, w, s).chain);
    case HoldPending(_) => ChainDeep(cfg, w, Next(cfg, w, s).chain);
    case ForceRevert(_, _) => ChainDeep(cfg, w, Next(cfg, w, s).chain);
    case _ =>
  }

  lemma {:induction false} RunDeep(cfg: Config, w: World, steps: seq<Step>)
    requires Inv(cfg, w) && DepthInv(cfg, w) && Distinct(cfg.devWallets)
    ensures Inv(cfg, Run(cfg, w, steps)) && DepthInv(cfg, Run(cfg, w, steps))
    decreases |steps|
  {
    hide Inv, DepthInv, Next;
    if steps != [] {
      StepInv(cfg, w, steps[0]);
      StepDeep(cfg, w, steps[0]);
      RunDeep(cfg, Next(cfg, w, steps[0]), steps[1..]);
    }
  }

  /**
   In every run a confirmed or failed row was mined at its own nonce under the hash it stored,
   with exactly that outcome, and at least the configured depth ago.
   */
  lemma ResolvedIsDeep(cfg: Config, w0: World, steps: seq<Step>, i: nat)
    requires Initial(cfg, w0) && Distinct(cfg.devWallets) && i < |Run(cfg, w0, steps).rows|
    ensures
      var w := Run(cfg, w0, steps);
      var r, mined := w.rows[i], w.chain.mined;
      r.status == Confirmed || r.status == Failed ==>
        && i < |mined| && r.txHash == Some(mined[i].tx.hash) && (r.status == Confirmed <==> mined[i].ok)
        && cfg.confirmations + mined[i].block <= w.chain.height + 1
  {
    InitialInv(cfg, w0);
    RunDeep(cfg, w0, steps);
    var w := Run(cfg, w0, steps);
    assert Deep(cfg, w.chain, w.rows[i], i) && RowOk(cfg, w.chain.sent, w.chain.mined, w.rows[i], i);
  }

  // ---- what one pass resolves ---------------------------------------------------------------------

  /** A sweep leaves the chain's history and height alone, and rows it has passed as they are. */
  lemma {:induction false} SweepKeeps(cfg: Config, w: World, n: nat)
    requires w.session.Recovering? && !w.session.sent && w.session.next + n <= |w.session.rows|
    ensures
      var w' := Run(cfg, w, Sweep(n));
      && w'.session.Recovering? && |w'.session.rows| == |w.session.rows|
      && w'.chain.mined == w.chain.mined && w'.chain.height == w.chain.height
      && forall k :: 0 <= k < w.session.next ==> w'.session.rows[k] == w.session.rows[k]
    decreases n
  {
    hide DoSend, DoCheck;
    if n > 0 {
      RunTwo(cfg, w, SendRow, CheckRow);
      RunAppend(cfg, w, [SendRow, CheckRow], Sweep(n - 1));
      SweepOne(cfg, w);
      SameHeight(cfg, w);
      SweepKeeps(cfg, DoCheck(cfg, DoSend(w)), n - 1);
    }
  }

  lemma SameHeight(cfg: Config, w: World)
    ensures DoCheck(cfg, DoSend(w)).chain.height == w.chain.height
  {}

  lemma {:induction false} SweepSplit(cfg: Config, w: World, i: nat, n: nat)
    ensures Run(cfg, w, Sweep(i + n)) == Run(cfg, Run(cfg, w, Sweep(i)), Sweep(n))
    decreases i
  {
    hide Next;
    if i > 0 {
      RunAppend(cfg, w, [SendRow, CheckRow], Sweep(i - 1 + n));
      RunAppend(cfg, w, [SendRow, CheckRow], Sweep(i - 1));
      SweepSplit(cfg, Run(cfg, w, [SendRow, CheckRow]), i - 1, n);
    }
  }

  lemma PassResolvesBuried(cfg: Config, w: World, i: nat)
    requires Inv(cfg, w) && Distinct(cfg.devWallets) && w.session.Closed? && Buried(cfg, w, i) && InFlight(w.rows[i])
    ensures i < |Run(cfg, w, RecoverSteps(|w.rows|)).rows|
    ensures !InFlight(Run(cfg, w, RecoverSteps(|w.rows|)).rows[i])
  {
    hide Inv, DoSend, DoCheck;
    var n := |w.rows|;
    var w0 := DoBeginRecover(w);
    RunRecover(cfg, w, n);
    BeginRecoverInv(cfg, w);
    SweepTo(cfg, w0, i);
    var w1 := Run(cfg, w0, Sweep(i));
    ResolveBuried(cfg, w1, i);
    SweepOne(cfg, w1);
    SweepSplit(cfg, w0, i, n - i);
    RunTwo(cfg, w1, SendRow, CheckRow);
    RunAppend(cfg, w1, [SendRow, CheckRow], Sweep(n - i - 1));
    SweepKeeps(cfg, DoCheck(cfg, DoSend(w1)), n - i - 1);
  }

  /**
   From every reachable idle state, a recovery pass resolves a row in flight if and only if the
   hash it stored was mined and the block that mined it has reached the confirmation depth.
   */
  lemma PassResolvesIff(cfg: Config, w0: World, before: seq<Step>, i: nat)
    requires Initial(cfg, w0) && Distinct(cfg.devWallets)
    requires
      var w := Run(cfg, w0, before);
      w.session.Closed? && i < |w.rows| && InFlight(w.rows[i])
    ensures
      var w := Run(cfg, w0, before);
      var w' := Run(cfg, w, RecoverSteps(|w.rows|));
      && i < |w'.rows|
      && (!InFlight(w'.rows[i]) <==>
        && i < |w.chain.mined| && w.rows[i].txHash == Some(w.chain.mined[i].tx.hash)
        && cfg.confirmations + w.chain.mined[i].block <= w.chain.height + 1)
  {
    hide Inv, DepthInv, Next;
    InitialInv(cfg, w0);
    assert DepthInv(cfg, w0) by { StartsDeep(cfg, w0); }
    RunDeep(cfg, w0, before);
    var w := Run(cfg, w0, before);
    var w' := Run(cfg, w, RecoverSteps(|w.rows|));
    RunDeep(cfg, w, RecoverSteps(|w.rows|));
    RunRecover(cfg, w, |w.rows|);
    SweepKeeps(cfg, DoBeginRecover(w), |w.rows|);
    if Buried(cfg, w, i) {
      PassResolvesBuried(cfg, w, i);
    } else if !InFlight(w'.rows[i]) {
      ResolvedDeep(cfg, w', i);
      assert Stuck(w, i);
      StuckForever(cfg, w, i, RecoverSteps(|w.rows|));
      assert false;
    }
  }

  lemma StartsDeep(cfg: Config, w: World)
    requires Initial(cfg, w)
    ensures DepthInv(cfg, w)
  {}

  lemma ResolvedDeep(cfg: Config, w: World, i: nat)
    requires DepthInv(cfg, w) && i < |w.rows|
    ensures Deep(cfg, w.chain, w.rows[i], i)
  {}
}
