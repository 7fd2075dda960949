/** The settlement layer's promises, over every run of the machine. */
module SettlementTheorems {
  import opened Common
  import opened Money
  import opened ChainModel
  import opened Settlement
  import opened SettlementSafety

  // ---- no double pay ---------------------------------------------------------------------------

  /** With distinct wallets, a payee list pays a provider's wallet what the legs reserve for it. */
  lemma {:induction false} PayIsLegs(cfg: Config, legs: seq<Leg>, p: nat)
    requires LegsOk(cfg, legs) && Distinct(cfg.providerWallets)
    requires p < |cfg.providerWallets| && cfg.providerWallets[p].Some?
    ensures Pay(PayeesOf(cfg, legs), cfg.providerWallets[p].value) == LegUnits(legs, p)
  {
    if legs != [] {
      assert LegsOk(cfg, legs[1..]);
      PayIsLegs(cfg, legs[1..], p);
      var w := WalletOf(cfg.providerWallets, legs[0].provider);
      assert w.Some? && w == cfg.providerWallets[legs[0].provider];
      assert PayeesOf(cfg, legs)[1..] == PayeesOf(cfg, legs[1..]);
    }
  }

  /** Row by row, what the chain paid out is still reserved. */
  lemma {:induction false} PaidReserved(cfg: Config, c: Chain, rows: seq<Row>, p: nat)
    requires |c.mined| <= |rows| && Distinct(cfg.providerWallets)
    requires p < |cfg.providerWallets| && cfg.providerWallets[p].Some?
    requires RowsOk(cfg, c, rows)
    requires forall i :: 0 <= i < |c.mined| ==> c.mined[i].tx.payload == rows[i].payload
    ensures Paid(c.mined, cfg.providerWallets[p].value) <= Reserved(rows, p)
    ensures |c.mined| == |rows| && !AnyInFlight(rows) ==>
      Paid(c.mined, cfg.providerWallets[p].value) == Reserved(rows, p)
  {
    PaidReservedUpTo(cfg, c, rows, p, |rows|);
    assert rows[..|rows|] == rows && c.mined[..|c.mined|] == c.mined;
  }

  /** One row: a payout is still reserved, and once the row is resolved the two are equal. */
  lemma RowPaid(cfg: Config, c: Chain, r: Row, k: nat, p: nat)
    requires k < |c.mined| && RowOk(cfg, c.sent, c.mined, r, k) && c.mined[k].tx.payload == r.payload
    requires Distinct(cfg.providerWallets) && p < |cfg.providerWallets| && cfg.providerWallets[p].Some?
    ensures
      var paid := if c.mined[k].ok && r.payload.SettleBatch? then Pay(r.payload.payees, cfg.providerWallets[p].value)
        else 0;
      var reserved := if Live(r) then LegUnits(r.legs, p) else 0;
      paid <= reserved && (!InFlight(r) ==> paid == reserved)
  {
    PayIsLegs(cfg, r.legs, p);
  }

  lemma {:induction false} PaidReservedUpTo(cfg: Config, c: Chain, rows: seq<Row>, p: nat, n: nat)
    requires |c.mined| <= |rows| && n <= |rows| && Distinct(cfg.providerWallets)
    requires p < |cfg.providerWallets| && cfg.providerWallets[p].Some?
    requires RowsOk(cfg, c, rows)
    requires forall i :: 0 <= i < |c.mined| ==> c.mined[i].tx.payload == rows[i].payload
    ensures Paid(c.mined[..Min(n, |c.mined|)], cfg.providerWallets[p].value) <= Reserved(rows[..n], p)
    ensures n <= |c.mined| && !AnyInFlight(rows) ==>
      Paid(c.mined[..n], cfg.providerWallets[p].value) == Reserved(rows[..n], p)
  {
    hide RowOk, Distinct;
    if n > 0 {
      var k := n - 1;
      PaidReservedUpTo(cfg, c, rows, p, k);
      assert rows[..n] == rows[..k] + [rows[k]];
      ReservedAppend(rows[..k], rows[k], p);
      if n <= |c.mined| {
        var m := c.mined[k];
        assert c.mined[..n] == c.mined[..k] + [m];
        PaidAppend(c.mined[..k], m, cfg.providerWallets[p].value);
        RowPaid(cfg, c, rows[k], k, p);
        assert RowOk(cfg, c.sent, c.mined, rows[k], k);
        if !AnyInFlight(rows) { assert !InFlight(rows[k]); }
      } else {
        assert Min(k, |c.mined|) == |c.mined|;
      }
    }
  }

  /** Units of a provider's legs in confirmed rows: what reconciliation calls recorded. */
  function RecordedUnits(rows: seq<Row>, p: nat): nat {
    if rows == [] then 0
    else
      var r := rows[|rows| - 1];
      RecordedUnits(rows[..|rows| - 1], p) + if r.status == Confirmed then LegUnits(r.legs, p) else 0
  }

  lemma {:induction false} RecordedAtMost(rows: seq<Row>, p: nat)
    ensures RecordedUnits(rows, p) <= Reserved(rows, p)
    ensures !AnyInFlight(rows) ==> RecordedUnits(rows, p) == Reserved(rows, p)
    decreases |rows|
  {
    if rows != [] {
      var k := |rows| - 1;
      RecordedAtMost(rows[..k], p);
      if !AnyInFlight(rows) {
        assert !InFlight(rows[k]);
        forall i | 0 <= i < k ensures !InFlight(rows[..k][i]) { assert !InFlight(rows[i]); }
      }
    }
  }

  /**
   In every run: the chain never pays a provider more than its live reservations, and those
   never exceed what it earned off-chain, so what is recorded as settled never does either.
   */
  lemma NoDoublePay(cfg: Config, w0: World, steps: seq<Step>, p: nat)
    requires Initial(cfg, w0) && Distinct(cfg.devWallets) && Distinct(cfg.providerWallets)
    requires p < |cfg.providerWallets| && cfg.providerWallets[p].Some?
    ensures
      var w := Run(cfg, w0, steps);
      && |w.earned| == |cfg.providerWallets|
      && Get(w.chain.earnings, cfg.providerWallets[p].value) <= Reserved(w.rows, p) <= ToUnits(w.earned[p])
      && RecordedUnits(w.rows, p) <= ToUnits(w.earned[p])
  {
    InitialInv(cfg, w0);
    RunInv(cfg, w0, steps);
    var w := Run(cfg, w0, steps);
    MinedRecorded(cfg, w);
    PaidReserved(cfg, w.chain, w.rows, p);
    RecordedAtMost(w.rows, p);
  }

  /** With nothing in flight the three books agree to the unit. */
  lemma SettledBooksAgree(cfg: Config, w0: World, steps: seq<Step>, p: nat)
    requires Initial(cfg, w0) && Distinct(cfg.devWallets) && Distinct(cfg.providerWallets)
    requires p < |cfg.providerWallets| && cfg.providerWallets[p].Some?
    requires !AnyInFlight(Run(cfg, w0, steps).rows)
    ensures
      var w := Run(cfg, w0, steps);
      Get(w.chain.earnings, cfg.providerWallets[p].value) == Reserved(w.rows, p) == RecordedUnits(w.rows, p)
  {
    InitialInv(cfg, w0);
    RunInv(cfg, w0, steps);
    var w := Run(cfg, w0, steps);
    MinedRecorded(cfg, w);
    ResolvedMined(cfg, w);
    PaidReserved(cfg, w.chain, w.rows, p);
    RecordedAtMost(w.rows, p);
  }

  /** A batch row keeps every payee's reservation until a revert consumed the row's own nonce. */
  lemma ReservationStands(cfg: Config, w0: World, steps: seq<Step>, i: nat, p: nat)
    requires Initial(cfg, w0) && Distinct(cfg.devWallets) && Distinct(cfg.providerWallets)
    requires p < |cfg.providerWallets| && cfg.providerWallets[p].Some?
    requires i < |Run(cfg, w0, steps).rows| && Run(cfg, w0, steps).rows[i].payload.SettleBatch?
    ensures
      var w := Run(cfg, w0, steps);
      var r := w.rows[i];
      if r.status == Failed then
        && r.legs == []
        && i < |w.chain.mined| && w.chain.mined[i].tx.nonce == r.nonce && !w.chain.mined[i].ok
        && w.chain.mined[i].tx.payload == r.payload
      else LegUnits(r.legs, p) == Pay(r.payload.payees, cfg.providerWallets[p].value)
  {
    InitialInv(cfg, w0);
    RunInv(cfg, w0, steps);
    var w := Run(cfg, w0, steps);
    MinedRecorded(cfg, w);
    assert RowOk(cfg, w.chain.sent, w.chain.mined, w.rows[i], i);
    if w.rows[i].status != Failed { PayIsLegs(cfg, w.rows[i].legs, p); }
  }

  // ---- nonces ------------------------------------------------------------------------------------

  /**
   Recorded nonces are gap-free and duplicate-free from the first; everything ever broadcast
   at one nonce says the same thing, and at most one such transaction is ever mined.
   */
  lemma NonceDiscipline(cfg: Config, w0: World, steps: seq<Step>)
    requires Initial(cfg, w0) && Distinct(cfg.devWallets)
    ensures
      var w := Run(cfg, w0, steps);
      && (forall i :: 0 <= i < |w.rows| ==> w.rows[i].nonce == cfg.first + i)
      && (forall h, g :: h in w.chain.sent && g in w.chain.sent && w.chain.sent[h].nonce == w.chain.sent[g].nonce ==>
        w.chain.sent[h].payload == w.chain.sent[g].payload)
      && (forall i, j :: (0 <= i < |w.chain.mined| && 0 <= j < |w.chain.mined|
          && w.chain.mined[i].tx.nonce == w.chain.mined[j].tx.nonce) ==> i == j)
  {
    InitialInv(cfg, w0);
    RunInv(cfg, w0, steps);
    var w := Run(cfg, w0, steps);
    forall i | 0 <= i < |w.rows| ensures w.rows[i].nonce == cfg.first + i {
      assert RowOk(cfg, w.chain.sent, w.chain.mined, w.rows[i], i);
    }
    forall h, g | h in w.chain.sent && g in w.chain.sent && w.chain.sent[h].nonce == w.chain.sent[g].nonce
      ensures w.chain.sent[h].payload == w.chain.sent[g].payload
    {
      var i := w.chain.sent[h].nonce - cfg.first;
      assert w.chain.sent[h].payload == w.rows[i].payload;
    }
  }

  /** New rows are committed only once every earlier recorded nonce has been mined. */
  lemma RecordedAfterMined(cfg: Config, w0: World, steps: seq<Step>, s: Step)
    requires Initial(cfg, w0) && Distinct(cfg.devWallets)
    ensures
      var w := Run(cfg, w0, steps);
      var w' := Next(cfg, w, s);
      |w.rows| < |w'.rows| ==> w.chain.minedNonce == cfg.first + |w.rows|
  {
    hide Inv, Run, Next, Initial;
    InitialInv(cfg, w0);
    RunInv(cfg, w0, steps);
    OnlyCommitsRecord(cfg, Run(cfg, w0, steps), s);
    CommitRecords(cfg, Run(cfg, w0, steps));
  }

  lemma OnlyCommitsRecord(cfg: Config, w: World, s: Step)
    ensures Next(cfg, w, s).rows == (if s.Commit? then DoCommit(w) else w).rows
  {
    hide MineBlock, Broadcast, Resolve, PlanLegs, PlanDebits, BatchRows, DebitRows, AnyInFlight;
  }

  lemma CommitRecords(cfg: Config, w: World)
    requires Inv(cfg, w)
    ensures |w.rows| < |DoCommit(w).rows| ==> w.chain.minedNonce == cfg.first + |w.rows|
  {
    hide RowsOk, ReservedOk, DebitsOk, SentMatch, TailOk;
  }

  // ---- history only grows ---------------------------------------------------------------------

  ghost predicate Grown(a: World, b: World) {
    && a.chain.mined <= b.chain.mined
    && a.chain.funded <= b.chain.funded
    && |a.rows| <= |b.rows|
    && forall i :: 0 <= i < |a.rows| ==> a.rows[i].payload == b.rows[i].payload && a.rows[i].key == b.rows[i].key
  }

  lemma StepGrows(cfg: Config, w: World, s: Step)
    requires ChainOk(w.chain, cfg.first) && SessionOk(cfg, w)
    ensures Grown(w, Next(cfg, w, s))
  {
    hide ChainOk, SessionOk;
    match s
    case Mine => MineBlockOk(w.chain, cfg.first);
    case SendRow => assert Grown(w, DoSend(w));
    case CheckRow => assert Grown(w, DoCheck(cfg, w));
    case Commit => CommitGrows(cfg, w);
    case _ =>
  }

  lemma CommitGrows(cfg: Config, w: World)
    requires SessionOk(cfg, w)
    ensures Grown(w, DoCommit(w))
  {
  }

  lemma {:induction false} RunGrows(cfg: Config, w: World, steps: seq<Step>)
    requires Inv(cfg, w) && Distinct(cfg.devWallets)
    ensures Grown(w, Run(cfg, w, steps))
    decreases |steps|
  {
    if steps != [] {
      StepGrows(cfg, w, steps[0]);
      StepInv(cfg, w, steps[0]);
      RunGrows(cfg, Next(cfg, w, steps[0]), steps[1..]);
    }
  }

  // ---- the pool ------------------------------------------------------------------------------------

  /**
   In every run, a batch that reverts without being forced to follows a deposit that did not
   go through: when the shortfall deposit executed, or none was needed, the pool suffices.
   */
  lemma PoolSufficiency(cfg: Config, w0: World, steps: seq<Step>, k: nat)
    requires Initial(cfg, w0) && Distinct(cfg.devWallets)
    requires k < |Run(cfg, w0, steps).chain.mined|
    ensures
      var mined := Run(cfg, w0, steps).chain.mined;
      (&& mined[k].tx.payload.SettleBatch? && !mined[k].forced
      && (k == 0 || !mined[k - 1].tx.payload.DepositSettlement? || mined[k - 1].ok))
      ==> mined[k].ok
  {
    InitialInv(cfg, w0);
    RunInv(cfg, w0, steps);
    var mined := Run(cfg, w0, steps).chain.mined;
    if k > 0 { assert FoundShort(mined[k]) ==> DepositLost(mined[k - 1]); }
  }

  /**
   Record a batch against a pool, then let anything happen except outside funding and a
   further group: once its transactions have all gone through, the pool holds exactly what
   the batch did not need.
   */
  lemma PoolExact(cfg: Config, w0: World, before: seq<Step>, steps: seq<Step>)
    requires Initial(cfg, w0) && Distinct(cfg.devWallets) && Run(cfg, w0, before).session.Numbered?
    requires
      var w := Run(cfg, w0, before);
      var w1 := Run(cfg, w, [RecordBatch, Commit]);
      var w2 := Run(cfg, w1, steps);
      && w2.chain.funded == w.chain.funded
      && |w2.rows| == |w1.rows| == |w2.chain.mined|
      && forall k :: |w.rows| <= k < |w2.rows| ==> w2.chain.mined[k].ok
    ensures
      var w := Run(cfg, w0, before);
      var w2 := Run(cfg, Run(cfg, w, [RecordBatch, Commit]), steps);
      w2.chain.pool == Max(0, w.chain.pool - TotalUnits(w.session.legs))
  {
    hide Inv, BatchRows, Next, Initial;
    InitialInv(cfg, w0);
    RunInv(cfg, w0, before);
    var w := Run(cfg, w0, before);
    NumberedFacts(cfg, w);
    RunRecordCommit(cfg, w);
    var w1 := Run(cfg, w, [RecordBatch, Commit]);
    RunInv(cfg, w, [RecordBatch, Commit]);
    RunInv(cfg, w1, steps);
    RunGrows(cfg, w1, steps);
    var w2 := Run(cfg, w1, steps);
    BatchDelta(cfg, w.session.legs, w.session.base, w.chain.pool);
    GroupMined(cfg, w, w1, w2, BatchRows(cfg, w.session.legs, w.session.base, w.chain.pool));
  }

  lemma NumberedFacts(cfg: Config, w: World)
    requires Inv(cfg, w) && w.session.Numbered?
    ensures AllMined(w) && LegsOk(cfg, w.session.legs)
  {
  }

  lemma RunRecordCommit(cfg: Config, w: World)
    requires w.session.Numbered?
    ensures Run(cfg, w, [RecordBatch, Commit]) ==
            w.(rows := w.rows + BatchRows(cfg, w.session.legs, w.session.base, w.chain.pool), session := Closed)
  {
    assert [RecordBatch, Commit][1..] == [Commit];
    assert Run(cfg, DoRecordBatch(cfg, w), [Commit]) == Run(cfg, DoCommit(DoRecordBatch(cfg, w)), []);
  }

  /** What a batch group does to the pool: top it up to the total if short, then pay out. */
  lemma BatchDelta(cfg: Config, legs: seq<Leg>, base: nat, pool: nat)
    requires LegsOk(cfg, legs)
    ensures
      var group := BatchRows(cfg, legs, base, pool);
      1 <= |group| <= 2 &&
      pool + PoolDelta(group[0].payload) + (if |group| == 2 then PoolDelta(group[1].payload) else 0)
        == Max(0, pool - TotalUnits(legs))
  {
    TotalIs(cfg, legs);
  }

  lemma GroupMined(cfg: Config, w: World, w1: World, w2: World, group: seq<Row>)
    requires Inv(cfg, w) && AllMined(w) && Inv(cfg, w2) && w2.chain.funded == w.chain.funded
    requires w1.rows == w.rows + group && w1.chain == w.chain && Grown(w1, w2) && 1 <= |group| <= 2
    requires |w2.rows| == |w1.rows| == |w2.chain.mined|
    requires forall k :: |w.rows| <= k < |w2.rows| ==> w2.chain.mined[k].ok
    ensures w2.chain.pool ==
      w.chain.pool + PoolDelta(group[0].payload) + if |group| == 2 then PoolDelta(group[1].payload) else 0
  {
    MinedRecorded(cfg, w2);
    forall k | 0 <= k < |group|
      ensures w2.chain.mined[|w.chain.mined| + k].ok
      ensures w2.chain.mined[|w.chain.mined| + k].tx.payload == group[k].payload
    {
      assert w1.rows[|w.rows| + k] == group[k];
    }
    GroupFlow(cfg, w, w2, group);
  }

  lemma GroupFlow(cfg: Config, w: World, w2: World, group: seq<Row>)
    requires ChainOk(w.chain, cfg.first) && ChainOk(w2.chain, cfg.first) && w2.chain.funded == w.chain.funded
    requires w.chain.mined <= w2.chain.mined && 1 <= |group| <= 2
    requires |w2.chain.mined| == |w.chain.mined| + |group|
    requires forall k :: 0 <= k < |group| ==>
      w2.chain.mined[|w.chain.mined| + k].ok && w2.chain.mined[|w.chain.mined| + k].tx.payload == group[k].payload
    ensures w2.chain.pool ==
      w.chain.pool + PoolDelta(group[0].payload) + if |group| == 2 then PoolDelta(group[1].payload) else 0
  {
    var n := |w.chain.mined|;
    PaidAppend(w.chain.mined, w2.chain.mined[n], 0);
    if |group| == 1 {
      assert w2.chain.mined == w.chain.mined + [w2.chain.mined[n]];
    } else {
      PaidAppend(w.chain.mined + [w2.chain.mined[n]], w2.chain.mined[n + 1], 0);
      assert w2.chain.mined == w.chain.mined + [w2.chain.mined[n]] + [w2.chain.mined[n + 1]];
    }
  }

  // ---- debits -----------------------------------------------------------------------------------

  lemma {:induction false} DebitedReserved(cfg: Config, c: Chain, rows: seq<Row>, v: Wallet, n: nat)
    requires |c.mined| <= |rows| && n <= |rows|
    requires RowsOk(cfg, c, rows)
    requires forall i :: 0 <= i < |c.mined| ==> c.mined[i].tx.payload == rows[i].payload
    ensures Debited(c.mined[..Min(n, |c.mined|)], v) <= DebitLive(rows[..n], v)
  {
    if n > 0 {
      var k := n - 1;
      DebitedReserved(cfg, c, rows, v, k);
      assert rows[..n] == rows[..k] + [rows[k]];
      ReservedAppend(rows[..k], rows[k], 0);
      if n <= |c.mined| {
        assert c.mined[..n] == c.mined[..k] + [c.mined[k]];
        PaidAppend(c.mined[..k], c.mined[k], v);
        assert RowOk(cfg, c.sent, c.mined, rows[k], k);
      } else {
        assert Min(k, |c.mined|) == |c.mined|;
      }
    }
  }

  /** In every run, on-chain debits stay within live debit rows, and those within consumption. */
  lemma DebitBound(cfg: Config, w0: World, steps: seq<Step>, d: nat)
    requires Initial(cfg, w0) && Distinct(cfg.devWallets)
    requires d < |cfg.devWallets| && cfg.devWallets[d].Some?
    ensures
      var w := Run(cfg, w0, steps);
      var v := cfg.devWallets[d].value;
      |w.consumed| == |cfg.devWallets| && Debited(w.chain.mined, v) <= DebitLive(w.rows, v) <= ToUnits(w.consumed[d])
  {
    InitialInv(cfg, w0);
    RunInv(cfg, w0, steps);
    var w := Run(cfg, w0, steps);
    MinedRecorded(cfg, w);
    DebitedReserved(cfg, w.chain, w.rows, cfg.devWallets[d].value, |w.rows|);
    assert w.rows[..|w.rows|] == w.rows && w.chain.mined[..|w.chain.mined|] == w.chain.mined;
    assert WalletOf(cfg.devWallets, d) == cfg.devWallets[d];
  }
}
