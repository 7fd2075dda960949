/**
 When the debit phase records anything. A debit's key is the developer and its settled total,
 and keys are unique over all rows, failed ones included: a reverted debit cannot be recorded
 again until its developer consumes another whole unit. The insert that repeats the key rolls
 the phase back, so until then no developer is debited at all.
 */
module SettlementDebits {
  import opened Common
  import opened Money
  import opened ChainModel
  import opened Settlement
  import opened SettlementSafety

  ghost predicate HasKey(rows: seq<Row>, key: Key) {
    exists i :: 0 <= i < |rows| && rows[i].key == key
  }

  /** Developer `d` is owed a debit. */
  ghost predicate Owes(cfg: Config, rows: seq<Row>, consumed: seq<nat>, d: nat) {
    && d < |consumed| && WalletOf(cfg.devWallets, d).Some?
    && DebitLive(rows, WalletOf(cfg.devWallets, d).value) < ToUnits(consumed[d])
  }

  /** Developer `d` is owed a debit whose key an earlier row already holds. */
  ghost predicate Blocks(cfg: Config, rows: seq<Row>, consumed: seq<nat>, d: nat) {
    Owes(cfg, rows, consumed, d) && HasKey(rows, DebitKey(d, ToUnits(consumed[d])))
  }

  lemma {:induction false} OrderPlanned(cfg: Config, consumed: seq<nat>, rows: seq<Row>, n: nat, d: nat)
    returns (k: nat)
    requires d < n <= |consumed| && Owes(cfg, rows, consumed, d)
    ensures k < |PlanDebits(cfg, consumed, rows, n)|
    ensures PlanDebits(cfg, consumed, rows, n)[k].dev == d
    ensures PlanDebits(cfg, consumed, rows, n)[k].settled == ToUnits(consumed[d])
  {
    if d == n - 1 {
      k := |PlanDebits(cfg, consumed, rows, n - 1)|;
    } else {
      k := OrderPlanned(cfg, consumed, rows, n - 1, d);
    }
  }

  lemma {:induction false} OrderOwed(cfg: Config, consumed: seq<nat>, rows: seq<Row>, n: nat, k: nat)
    requires n <= |consumed| && k < |PlanDebits(cfg, consumed, rows, n)|
    ensures
      var o := PlanDebits(cfg, consumed, rows, n)[k];
      Owes(cfg, rows, consumed, o.dev) && o.settled == ToUnits(consumed[o.dev])
  {
    var rest := PlanDebits(cfg, consumed, rows, n - 1);
    if k < |rest| {
      OrderOwed(cfg, consumed, rows, n - 1, k);
      assert PlanDebits(cfg, consumed, rows, n)[k] == rest[k];
    }
  }

  /** One whole debit phase, from an idle engine. */
  function DebitPhase(cfg: Config, w: World): World {
    DoCommit(DoRecordDebits(cfg, DoBeginDebit(cfg, w, true, true)))
  }

  /** The phase records debits if and only if somebody owes and nobody blocks. */
  lemma DebitPhaseIff(cfg: Config, w: World)
    requires w.session.Closed? && !AnyInFlight(w.rows)
    ensures
      |DebitPhase(cfg, w).rows| > |w.rows|
      <==> (exists d :: Owes(cfg, w.rows, w.consumed, d)) && !(exists d :: Blocks(cfg, w.rows, w.consumed, d))
  {
    var n := |w.consumed|;
    var orders := PlanDebits(cfg, w.consumed, w.rows, n);
    if d :| Owes(cfg, w.rows, w.consumed, d) {
      var k := OrderPlanned(cfg, w.consumed, w.rows, n, d);
    }
    if orders != [] { OrderOwed(cfg, w.consumed, w.rows, n, 0); }
    if d :| Blocks(cfg, w.rows, w.consumed, d) {
      BlockedPlan(cfg, w, d);
    }
    if AnyKeyTaken(w.rows, orders) {
      var k :| 0 <= k < |orders| && KeyTaken(w.rows, orders[k]);
      OrderOwed(cfg, w.consumed, w.rows, n, k);
      assert Blocks(cfg, w.rows, w.consumed, orders[k].dev);
    }
    DebitRowsDebit(cfg, orders, BaseNonce(w.chain, w.rows));
  }

  lemma BlockedPlan(cfg: Config, w: World, d: nat)
    requires Blocks(cfg, w.rows, w.consumed, d)
    ensures AnyKeyTaken(w.rows, PlanDebits(cfg, w.consumed, w.rows, |w.consumed|))
  {
    var k := OrderPlanned(cfg, w.consumed, w.rows, |w.consumed|, d);
    var o := PlanDebits(cfg, w.consumed, w.rows, |w.consumed|)[k];
    assert KeyTaken(w.rows, o) by {
      var i :| 0 <= i < |w.rows| && w.rows[i].key == DebitKey(d, ToUnits(w.consumed[d]));
    }
  }

  // ---- one blocked developer blocks every developer, in every continuation ----------------------

  /** Rows appended to `rows` that debit nobody. */
  ghost predicate NoNewDebits(rows: seq<Row>, rs: seq<Row>) {
    |rows| <= |rs| && forall i :: |rows| <= i < |rs| ==> !rs[i].payload.DebitEscrow?
  }

  ghost predicate Blocked(cfg: Config, w: World, d: nat, n: nat) {
    && Blocks(cfg, w.rows, w.consumed, d)
    && n <= |w.rows| && (forall i :: n <= i < |w.rows| ==> !w.rows[i].payload.DebitEscrow?)
    && match w.session
       case Recovering(rs, _, _, _) => Blocks(cfg, rs, w.consumed, d)
       case DebitPlanned(orders) => AnyKeyTaken(w.rows, orders)
       case Recorded(rs) => Blocks(cfg, rs, w.consumed, d) && NoNewDebits(w.rows, rs)
       case _ => true
  }

  /** Changing one row's status keeps a blocked developer blocked. */
  lemma BlocksUpdate(cfg: Config, rows: seq<Row>, consumed: seq<nat>, d: nat, i: nat, r: Row)
    requires Blocks(cfg, rows, consumed, d) && i < |rows|
    requires Live(r) ==> Live(rows[i])
    requires r.payload == rows[i].payload && r.key == rows[i].key
    ensures Blocks(cfg, rows[i := r], consumed, d)
  {
    DebitLiveUpdate(rows, i, r, WalletOf(cfg.devWallets, d).value);
    var k :| 0 <= k < |rows| && rows[k].key == DebitKey(d, ToUnits(consumed[d]));
    assert rows[i := r][k].key == rows[k].key;
  }

  lemma BlocksBatch(cfg: Config, w: World, d: nat, legs: seq<Leg>, base: nat, pool: nat)
    requires Blocks(cfg, w.rows, w.consumed, d)
    ensures
      var rs := w.rows + BatchRows(cfg, legs, base, pool);
      Blocks(cfg, rs, w.consumed, d) && NoNewDebits(w.rows, rs)
  {
    var added := BatchRows(cfg, legs, base, pool);
    var rs := w.rows + added;
    ReservedAppend(w.rows, added[0], 0);
    if |added| == 2 {
      ReservedAppend(w.rows + [added[0]], added[1], 0);
      assert rs == w.rows + [added[0]] + [added[1]];
    } else {
      assert rs == w.rows + [added[0]];
    }
    var k :| 0 <= k < |w.rows| && w.rows[k].key == DebitKey(d, ToUnits(w.consumed[d]));
    assert rs[k] == w.rows[k];
  }

  lemma BlockedSend(cfg: Config, w: World, d: nat, n: nat)
    requires Blocked(cfg, w, d, n)
    ensures Blocked(cfg, DoSend(w), d, n)
  {
    var ss := w.session;
    var w' := DoSend(w);
    if ss.Recovering? && w'.session.rows != ss.rows {
      BlocksUpdate(cfg, ss.rows, w.consumed, d, ss.next, w'.session.rows[ss.next]);
    }
  }

  lemma BlockedCheck(cfg: Config, w: World, d: nat, n: nat)
    requires Blocked(cfg, w, d, n) && Inv(cfg, w)
    ensures Blocked(cfg, DoCheck(cfg, w), d, n)
  {
    var ss := w.session;
    if ss.Recovering? && ss.sent && ss.next < |ss.rows| {
      var r := ss.rows[ss.next];
      assert RowOk(cfg, w.chain.sent, w.chain.mined, r, ss.next);
      if r.txHash.Some? && ReceiptAt(w.chain.mined, r.txHash.value).Some? { ReceiptIsOwn(cfg, w.chain, r, ss.next); }
      BlocksUpdate(cfg, ss.rows, w.consumed, d, ss.next, Resolve(cfg, w.chain.mined, ss.latest, r));
    }
  }

  lemma BlockedCommit(cfg: Config, w: World, d: nat, n: nat)
    requires Blocked(cfg, w, d, n) && Inv(cfg, w)
    ensures Blocked(cfg, DoCommit(w), d, n)
  {
    if w.session.Recovering? { assert SameWork(w.session.rows, w.rows); }
  }

  lemma BlockedStep(cfg: Config, w: World, d: nat, n: nat, s: Step)
    requires Blocked(cfg, w, d, n) && Inv(cfg, w)
    requires d < |Next(cfg, w, s).consumed| && ToUnits(Next(cfg, w, s).consumed[d]) == ToUnits(w.consumed[d])
    ensures Blocked(cfg, Next(cfg, w, s), d, n)
  {
    hide Inv, DoSend, DoCheck, DoCommit, MineBlock, BatchRows, PlanDebits, PlanLegs, DebitRows;
    match s
    case SendRow => BlockedSend(cfg, w, d, n);
    case CheckRow => BlockedCheck(cfg, w, d, n);
    case Commit => BlockedCommit(cfg, w, d, n);
    case RecordBatch =>
      if w.session.Numbered? { BlocksBatch(cfg, w, d, w.session.legs, w.session.base, w.chain.pool); }
    case BeginDebit(_, _) => BlockedPlan(cfg, w, d);
    case _ =>
  }

  lemma ConsumedGrows(cfg: Config, w: World, s: Step, d: nat)
    requires d < |w.consumed|
    ensures d < |Next(cfg, w, s).consumed| && w.consumed[d] <= Next(cfg, w, s).consumed[d]
  {
    hide MineBlock, Broadcast, Resolve, PlanLegs, PlanDebits, BatchRows, DebitRows, AnyInFlight;
  }

  lemma {:induction false} ConsumedGrowsRun(cfg: Config, w: World, steps: seq<Step>, d: nat)
    requires d < |w.consumed|
    ensures d < |Run(cfg, w, steps).consumed| && w.consumed[d] <= Run(cfg, w, steps).consumed[d]
    decreases |steps|
  {
    hide Next;
    if steps != [] {
      ConsumedGrows(cfg, w, steps[0], d);
      ConsumedGrowsRun(cfg, Next(cfg, w, steps[0]), steps[1..], d);
    }
  }

  /** The developer's consumption ends at the same whole number of units. */
  ghost predicate SameUnits(cfg: Config, w: World, steps: seq<Step>, d: nat) {
    && d < |w.consumed| && d < |Run(cfg, w, steps).consumed|
    && ToUnits(Run(cfg, w, steps).consumed[d]) == ToUnits(w.consumed[d])
  }

  lemma {:induction false} BlockedRun(cfg: Config, w: World, d: nat, n: nat, steps: seq<Step>)
    requires Blocked(cfg, w, d, n) && Inv(cfg, w) && Distinct(cfg.devWallets) && SameUnits(cfg, w, steps, d)
    ensures Blocked(cfg, Run(cfg, w, steps), d, n)
    decreases |steps|
  {
    hide Inv, Blocked, Next;
    if steps != [] {
      ConsumedGrows(cfg, w, steps[0], d);
      ConsumedGrowsRun(cfg, Next(cfg, w, steps[0]), steps[1..], d);
      BlockedStep(cfg, w, d, n, steps[0]);
      StepInv(cfg, w, steps[0]);
      BlockedRun(cfg, Next(cfg, w, steps[0]), d, n, steps[1..]);
    }
  }

  /**
   From a reachable idle state in which one developer's debit key is taken, every continuation
   in which that developer does not consume a further whole unit records no debit for anyone.
   */
  lemma OneBlocksAll(cfg: Config, w0: World, before: seq<Step>, d: nat, steps: seq<Step>)
    requires Initial(cfg, w0) && Distinct(cfg.devWallets)
    requires Run(cfg, w0, before).session.Closed?
    requires Blocks(cfg, Run(cfg, w0, before).rows, Run(cfg, w0, before).consumed, d)
    requires SameUnits(cfg, Run(cfg, w0, before), steps, d)
    ensures NoNewDebits(Run(cfg, w0, before).rows, Run(cfg, Run(cfg, w0, before), steps).rows)
  {
    hide Inv, Initial, Blocks, Run, SameUnits;
    InitialInv(cfg, w0);
    RunInv(cfg, w0, before);
    var w := Run(cfg, w0, before);
    BlockedRun(cfg, w, d, |w.rows|, steps);
  }
}
