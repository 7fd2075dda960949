/** What the keys of debit rows say about the table, and how a reverted debit comes to block. */
module SettlementKeys {
  import opened Common
  import opened Money
  import opened ChainModel
  import opened Settlement
  import opened SettlementSafety
  import opened SettlementDebits
  import opened SettlementLiveness

  // ---- the invariant -------------------------------------------------------------------------

  /** A debit row brought its developer's live debits up to its settled total, which was consumed by then. */
  ghost predicate KeyRow(cfg: Config, rows: seq<Row>, consumed: seq<nat>, i: nat)
    requires i < |rows|
  {
    match rows[i].key
    case Cycle => !rows[i].payload.DebitEscrow?
    case DebitKey(d, settled) =>
      && d < |consumed| && WalletOf(cfg.devWallets, d).Some? && rows[i].payload.DebitEscrow?
      && rows[i].payload.developer == WalletOf(cfg.devWallets, d).value && rows[i].payload.amount > 0
      && DebitLive(rows[..i], rows[i].payload.developer) + rows[i].payload.amount == settled <= ToUnits(consumed[d])
  }

  ghost predicate Keyed(cfg: Config, rows: seq<Row>, consumed: seq<nat>) {
    forall i :: 0 <= i < |rows| ==> KeyRow(cfg, rows, consumed, i)
  }

  predicate SameDev(a: Row, b: Row) { a.key.DebitKey? && b.key.DebitKey? && a.key.dev == b.key.dev }

  /** A developer's debit rows are recorded one at a time, for growing totals. */
  ghost predicate Ordered(rows: seq<Row>) {
    forall i, j :: 0 <= i < j < |rows| && SameDev(rows[i], rows[j]) ==>
      !InFlight(rows[i]) && rows[i].key.settled < rows[j].key.settled
  }

  ghost predicate RowsKeyed(cfg: Config, rows: seq<Row>, consumed: seq<nat>) {
    Keyed(cfg, rows, consumed) && Ordered(rows)
  }

  /** An order brings its developer up to its consumption, and no row of the developer is above it. */
  ghost predicate OrderKeyed(cfg: Config, rows: seq<Row>, consumed: seq<nat>, o: DebitOrder) {
    && o.dev < |consumed| && WalletOf(cfg.devWallets, o.dev).Some? && o.owed > 0
    && DebitLive(rows, WalletOf(cfg.devWallets, o.dev).value) + o.owed == o.settled <= ToUnits(consumed[o.dev])
    && (forall i :: 0 <= i < |rows| && rows[i].key.DebitKey? && rows[i].key.dev == o.dev ==>
      rows[i].key.settled <= o.settled)
  }

  ghost predicate OrdersKeyed(cfg: Config, rows: seq<Row>, consumed: seq<nat>, orders: seq<DebitOrder>) {
    && !AnyInFlight(rows) && Sorted(orders, |consumed|)
    && forall k :: 0 <= k < |orders| ==> OrderKeyed(cfg, rows, consumed, orders[k])
  }

  ghost predicate KeyInv(cfg: Config, w: World) {
    && RowsKeyed(cfg, w.rows, w.consumed)
    && match w.session
       case Recovering(rs, next, _, sent) =>
         RowsKeyed(cfg, rs, w.consumed) && (sent ==> next < |rs| && InFlight(rs[next]))
       case DebitPlanned(orders) => OrdersKeyed(cfg, w.rows, w.consumed, orders)
       case Recorded(rs) => RowsKeyed(cfg, rs, w.consumed)
       case _ => true
  }

  // ---- changing one row -------------------------------------------------------------------------

  lemma {:induction false} LiveUpdate(rows: seq<Row>, i: nat, r: Row, v: Wallet)
    requires i < |rows| && r.payload == rows[i].payload && (Live(r) == Live(rows[i]) || DebitOf(r.payload, v) == 0)
    ensures DebitLive(rows[i := r], v) == DebitLive(rows, v)
    decreases |rows|
  {
    var n := |rows| - 1;
    if i < n {
      assert rows[i := r][..n] == rows[..n][i := r];
      LiveUpdate(rows[..n], i, r, v);
    } else {
      assert rows[i := r][..n] == rows[..n];
    }
  }

  lemma KeyedUpdate(cfg: Config, rows: seq<Row>, consumed: seq<nat>, i: nat, r: Row)
    requires RowsKeyed(cfg, rows, consumed) && Distinct(cfg.devWallets) && |consumed| == |cfg.devWallets|
    requires i < |rows| && InFlight(rows[i]) && r.payload == rows[i].payload && r.key == rows[i].key
    ensures RowsKeyed(cfg, rows[i := r], consumed)
  {
    var rs := rows[i := r];
    forall j | 0 <= j < |rs| ensures KeyRow(cfg, rs, consumed, j) {
      assert KeyRow(cfg, rows, consumed, j) && KeyRow(cfg, rows, consumed, i);
      if j <= i {
        assert rs[..j] == rows[..j];
      } else {
        assert rs[..j] == rows[..j][i := r];
        if rows[j].key.DebitKey? {
          var v := rows[j].payload.developer;
          assert DebitOf(r.payload, v) == 0 by {
            if rows[i].key.DebitKey? { assert !SameDev(rows[i], rows[j]); }
          }
          LiveUpdate(rows[..j], i, r, v);
        }
      }
    }
    assert Ordered(rs) by {
      forall a, b | 0 <= a < b < |rs| && SameDev(rs[a], rs[b])
        ensures !InFlight(rs[a]) && rs[a].key.settled < rs[b].key.settled
      {
        assert SameDev(rows[a], rows[b]);
      }
    }
  }

  lemma KeyedAppend(cfg: Config, rows: seq<Row>, consumed: seq<nat>, r: Row)
    requires RowsKeyed(cfg, rows, consumed) && KeyRow(cfg, rows + [r], consumed, |rows|)
    requires forall i :: 0 <= i < |rows| && SameDev(rows[i], r) ==>
      !InFlight(rows[i]) && rows[i].key.settled < r.key.settled
    ensures RowsKeyed(cfg, rows + [r], consumed)
  {
    var rs := rows + [r];
    forall j | 0 <= j < |rs| ensures KeyRow(cfg, rs, consumed, j) {
      if j < |rows| {
        assert KeyRow(cfg, rows, consumed, j);
        assert rs[..j] == rows[..j];
      }
    }
  }

  lemma KeyedBatch(cfg: Config, rows: seq<Row>, consumed: seq<nat>, legs: seq<Leg>, base: nat, pool: nat)
    requires RowsKeyed(cfg, rows, consumed)
    ensures RowsKeyed(cfg, rows + BatchRows(cfg, legs, base, pool), consumed)
  {
    hide RowsKeyed;
    var added := BatchRows(cfg, legs, base, pool);
    KeyedAppend(cfg, rows, consumed, added[0]);
    if |added| == 2 {
      KeyedAppend(cfg, rows + [added[0]], consumed, added[1]);
      assert rows + added == rows + [added[0]] + [added[1]];
    } else {
      assert rows + added == rows + [added[0]];
    }
  }

  lemma KeyedMore(cfg: Config, rows: seq<Row>, consumed: seq<nat>, more: seq<nat>)
    requires RowsKeyed(cfg, rows, consumed) && |more| == |consumed|
    requires forall d :: 0 <= d < |consumed| ==> consumed[d] <= more[d]
    ensures RowsKeyed(cfg, rows, more)
  {
    forall i | 0 <= i < |rows| ensures KeyRow(cfg, rows, more, i) {
      assert KeyRow(cfg, rows, consumed, i);
    }
  }

  // ---- recording a group of debits ---------------------------------------------------------------

  lemma {:induction false} OrdersPlanned(cfg: Config, consumed: seq<nat>, rows: seq<Row>, n: nat)
    requires n <= |consumed| && RowsKeyed(cfg, rows, consumed)
    ensures forall k :: 0 <= k < |PlanDebits(cfg, consumed, rows, n)| ==>
      OrderKeyed(cfg, rows, consumed, PlanDebits(cfg, consumed, rows, n)[k])
  {
    if n > 0 {
      OrdersPlanned(cfg, consumed, rows, n - 1);
      forall i | 0 <= i < |rows| && rows[i].key.DebitKey?
        ensures rows[i].key.dev < |consumed| && rows[i].key.settled <= ToUnits(consumed[rows[i].key.dev])
      {
        assert KeyRow(cfg, rows, consumed, i);
      }
    }
  }

  /** Orders still to be recorded after some rows of the group are in. */
  ghost predicate Recordable(cfg: Config, rows: seq<Row>, consumed: seq<nat>, orders: seq<DebitOrder>) {
    && Sorted(orders, |consumed|)
    && (forall k :: 0 <= k < |orders| ==> OrderKeyed(cfg, rows, consumed, orders[k]) && !KeyTaken(rows, orders[k]))
    && (forall i, k ::
      0 <= i < |rows| && 0 <= k < |orders| && rows[i].key.DebitKey? && rows[i].key.dev == orders[k].dev ==>
        !InFlight(rows[i]))
  }

  function RowOf(cfg: Config, o: DebitOrder, base: nat): Row {
    var w := WalletOf(cfg.devWallets, o.dev);
    Row(Pending, base, DebitEscrow(if w.Some? then w.value else 0, o.owed), DebitKey(o.dev, o.settled), None, [])
  }

  lemma RecordOne(cfg: Config, rows: seq<Row>, consumed: seq<nat>, orders: seq<DebitOrder>, base: nat)
    requires RowsKeyed(cfg, rows, consumed) && Recordable(cfg, rows, consumed, orders) && orders != []
    requires Distinct(cfg.devWallets) && |consumed| == |cfg.devWallets|
    ensures
      var r := RowOf(cfg, orders[0], base);
      RowsKeyed(cfg, rows + [r], consumed) && Recordable(cfg, rows + [r], consumed, orders[1..])
  {
    var o, r := orders[0], RowOf(cfg, orders[0], base);
    var rs := rows + [r];
    assert OrderKeyed(cfg, rows, consumed, o) && !KeyTaken(rows, o);
    assert rs[..|rows|] == rows;
    KeyedAppend(cfg, rows, consumed, r);
    forall k | 0 <= k < |orders[1..]|
      ensures OrderKeyed(cfg, rs, consumed, orders[1..][k]) && !KeyTaken(rs, orders[1..][k])
    {
      var q := orders[k + 1];
      assert OrderKeyed(cfg, rows, consumed, q) && !KeyTaken(rows, q) && q.dev != o.dev;
      ReservedAppend(rows, r, 0);
      assert WalletOf(cfg.devWallets, q.dev) != WalletOf(cfg.devWallets, o.dev);
    }
  }

  lemma {:induction false} RecordAll(cfg: Config, rows: seq<Row>, consumed: seq<nat>, orders: seq<DebitOrder>,
      base: nat)
    requires RowsKeyed(cfg, rows, consumed) && Recordable(cfg, rows, consumed, orders)
    requires Distinct(cfg.devWallets) && |consumed| == |cfg.devWallets|
    ensures RowsKeyed(cfg, rows + DebitRows(cfg, orders, base), consumed)
    decreases |orders|
  {
    hide RowsKeyed, Recordable;
    if orders == [] {
      assert rows + DebitRows(cfg, orders, base) == rows;
    } else {
      var r := RowOf(cfg, orders[0], base);
      RecordOne(cfg, rows, consumed, orders, base);
      RecordAll(cfg, rows + [r], consumed, orders[1..], base + 1);
      assert DebitRows(cfg, orders, base) == [r] + DebitRows(cfg, orders[1..], base + 1);
      assert rows + ([r] + DebitRows(cfg, orders[1..], base + 1)) == rows + [r] + DebitRows(cfg, orders[1..], base + 1);
    }
  }

  lemma RecordableAtFirst(cfg: Config, rows: seq<Row>, consumed: seq<nat>, orders: seq<DebitOrder>)
    requires OrdersKeyed(cfg, rows, consumed, orders) && !AnyKeyTaken(rows, orders)
    ensures Recordable(cfg, rows, consumed, orders)
  {}

  // ---- the steps --------------------------------------------------------------------------------------

  lemma SendKeys(cfg: Config, w: World)
    requires KeyInv(cfg, w) && Distinct(cfg.devWallets) && |w.consumed| == |cfg.devWallets|
    ensures KeyInv(cfg, DoSend(w))
  {
    hide RowsKeyed;
    var ss, w' := w.session, DoSend(w);
    if ss.Recovering? && w'.session.rows != ss.rows {
      KeyedUpdate(cfg, ss.rows, w.consumed, ss.next, w'.session.rows[ss.next]);
    }
  }

  lemma CheckKeys(cfg: Config, w: World)
    requires KeyInv(cfg, w) && Distinct(cfg.devWallets) && |w.consumed| == |cfg.devWallets|
    ensures KeyInv(cfg, DoCheck(cfg, w))
  {
    hide RowsKeyed;
    var ss := w.session;
    if ss.Recovering? && ss.sent && ss.next < |ss.rows| {
      KeyedUpdate(cfg, ss.rows, w.consumed, ss.next, Resolve(cfg, w.chain.mined, ss.latest, ss.rows[ss.next]));
    }
  }

  lemma ConsumeKeys(cfg: Config, w: World, d: nat, t: nat)
    requires KeyInv(cfg, w) && d < |w.consumed|
    ensures KeyInv(cfg, w.(consumed := w.consumed[d := w.consumed[d] + t]))
  {
    hide RowsKeyed, DebitLive;
    var more := w.consumed[d := w.consumed[d] + t];
    KeyedMore(cfg, w.rows, w.consumed, more);
    match w.session {
      case Recovering(rs, _, _, _) => KeyedMore(cfg, rs, w.consumed, more);
      case Recorded(rs) => KeyedMore(cfg, rs, w.consumed, more);
      case DebitPlanned(orders) =>
        forall k | 0 <= k < |orders| ensures OrderKeyed(cfg, w.rows, more, orders[k]) {
          assert OrderKeyed(cfg, w.rows, w.consumed, orders[k]);
        }
      case _ =>
    }
  }

  lemma BeginDebitKeys(cfg: Config, w: World, force: bool, elapsed: bool)
    requires KeyInv(cfg, w)
    ensures KeyInv(cfg, DoBeginDebit(cfg, w, force, elapsed))
  {
    OrdersPlanned(cfg, w.consumed, w.rows, |w.consumed|);
    PlanDebitsSorted(cfg, w.consumed, w.rows, |w.consumed|);
  }

  lemma RecordKeys(cfg: Config, w: World)
    requires KeyInv(cfg, w) && Distinct(cfg.devWallets) && |w.consumed| == |cfg.devWallets|
    ensures KeyInv(cfg, DoRecordDebits(cfg, w))
  {
    hide RowsKeyed, OrdersKeyed;
    if w.session.DebitPlanned? && !AnyKeyTaken(w.rows, w.session.orders) {
      RecordableAtFirst(cfg, w.rows, w.consumed, w.session.orders);
      RecordAll(cfg, w.rows, w.consumed, w.session.orders, BaseNonce(w.chain, w.rows));
    }
  }

  lemma StepKeys(cfg: Config, w: World, s: Step)
    requires KeyInv(cfg, w) && Distinct(cfg.devWallets) && |w.consumed| == |cfg.devWallets|
    ensures KeyInv(cfg, Next(cfg, w, s)) && |Next(cfg, w, s).consumed| == |w.consumed|
  {
    hide DoSend, DoCheck, DoBeginDebit, DoRecordDebits, MineBlock, BatchRows, PlanLegs, RowsKeyed, OrdersKeyed;
    match s
    case Consume(d, t) => if d < |w.consumed| { ConsumeKeys(cfg, w, d, t); }
    case SendRow => SendKeys(cfg, w); SendKeeps(w);
    case CheckRow => CheckKeys(cfg, w); CheckKeeps(cfg, w);
    case BeginDebit(force, elapsed) => BeginDebitKeys(cfg, w, force, elapsed); DebitKeeps(cfg, w, force, elapsed);
    case RecordDebits => RecordKeys(cfg, w); DebitKeeps(cfg, w, false, false);
    case RecordBatch =>
      if w.session.Numbered? {
        KeyedBatch(cfg, w.rows, w.consumed, w.session.legs, w.session.base, w.chain.pool);
      }
    case _ =>
  }

  lemma SendKeeps(w: World)
    ensures DoSend(w).consumed == w.consumed
  {}

  lemma CheckKeeps(cfg: Config, w: World)
    ensures DoCheck(cfg, w).consumed == w.consumed
  {}

  lemma DebitKeeps(cfg: Config, w: World, force: bool, elapsed: bool)
    ensures DoBeginDebit(cfg, w, force, elapsed).consumed == w.consumed && DoRecordDebits(cfg, w).consumed == w.consumed
  {}

  lemma {:induction false} RunKeys(cfg: Config, w: World, steps: seq<Step>)
    requires KeyInv(cfg, w) && Distinct(cfg.devWallets) && |w.consumed| == |cfg.devWallets|
    ensures KeyInv(cfg, Run(cfg, w, steps)) && |Run(cfg, w, steps).consumed| == |w.consumed|
    decreases |steps|
  {
    hide KeyInv, Next;
    if steps != [] {
      StepKeys(cfg, w, steps[0]);
      RunKeys(cfg, Next(cfg, w, steps[0]), steps[1..]);
    }
  }

  // ---- what a failed debit does ------------------------------------------------------------------------

  /** A debit for everything a developer has consumed, to the unit, that reverted. */
  ghost predicate Reverted(w: World, d: nat) {
    d < |w.consumed| && exists i ::
      0 <= i < |w.rows| && w.rows[i].status == Failed && w.rows[i].key == DebitKey(d, ToUnits(w.consumed[d]))
  }

  lemma {:induction false} NoLaterDebit(rows: seq<Row>, i: nat, v: Wallet)
    requires i < |rows| && forall j :: i < j < |rows| ==> DebitOf(rows[j].payload, v) == 0
    ensures DebitLive(rows, v) == DebitLive(rows[..i + 1], v)
    decreases |rows|
  {
    var n := |rows| - 1;
    if i < n {
      assert rows[..n][..i + 1] == rows[..i + 1];
      NoLaterDebit(rows[..n], i, v);
    } else {
      assert rows[..i + 1] == rows;
    }
  }

  lemma LiveUpTo(cfg: Config, w: World, i: nat)
    requires KeyInv(cfg, w) && Distinct(cfg.devWallets) && |w.consumed| == |cfg.devWallets|
    requires i < |w.rows| && w.rows[i].key.DebitKey?
    requires w.rows[i].key.dev < |w.consumed| && w.rows[i].key.settled == ToUnits(w.consumed[w.rows[i].key.dev])
    ensures
      var v := w.rows[i].payload.DebitEscrow? && WalletOf(cfg.devWallets, w.rows[i].key.dev).Some?;
      && v
      && DebitLive(w.rows, w.rows[i].payload.developer) ==
        w.rows[i].key.settled - if Live(w.rows[i]) then 0 else w.rows[i].payload.amount
  {
    var r := w.rows[i];
    assert KeyRow(cfg, w.rows, w.consumed, i);
    var v := r.payload.developer;
    forall j | i < j < |w.rows| ensures DebitOf(w.rows[j].payload, v) == 0 {
      assert KeyRow(cfg, w.rows, w.consumed, j);
      if w.rows[j].key.DebitKey? { assert !SameDev(r, w.rows[j]); }
    }
    NoLaterDebit(w.rows, i, v);
    assert w.rows[..i + 1][..i] == w.rows[..i];
  }

  /** In every reachable state a developer's owed debit is blocked if and only if its last one reverted. */
  lemma BlocksIff(cfg: Config, w0: World, steps: seq<Step>, d: nat)
    requires Initial(cfg, w0) && Distinct(cfg.devWallets)
    ensures
      var w := Run(cfg, w0, steps);
      Blocks(cfg, w.rows, w.consumed, d) <==> Reverted(w, d)
  {
    hide Run, DebitLive;
    assert KeyInv(cfg, w0);
    RunKeys(cfg, w0, steps);
    var w := Run(cfg, w0, steps);
    if Blocks(cfg, w.rows, w.consumed, d) {
      var i :| 0 <= i < |w.rows| && w.rows[i].key == DebitKey(d, ToUnits(w.consumed[d]));
      LiveUpTo(cfg, w, i);
      assert KeyRow(cfg, w.rows, w.consumed, i);
    }
    if Reverted(w, d) {
      var i :| 0 <= i < |w.rows| && w.rows[i].status == Failed && w.rows[i].key == DebitKey(d, ToUnits(w.consumed[d]));
      LiveUpTo(cfg, w, i);
      assert KeyRow(cfg, w.rows, w.consumed, i);
    }
  }

  /**
   One reverted debit blocks everyone: from a reachable idle state in which a developer's last
   debit reverted, no continuation in which that developer does not consume a further whole unit
   records a debit for anyone.
   */
  lemma RevertBlocksAll(cfg: Config, w0: World, before: seq<Step>, d: nat, after: seq<Step>)
    requires Initial(cfg, w0) && Distinct(cfg.devWallets)
    requires Run(cfg, w0, before).session.Closed? && Reverted(Run(cfg, w0, before), d)
    requires SameUnits(cfg, Run(cfg, w0, before), after, d)
    ensures NoNewDebits(Run(cfg, w0, before).rows, Run(cfg, Run(cfg, w0, before), after).rows)
  {
    hide Run, Reverted, Blocks, Initial, SameUnits;
    BlocksIff(cfg, w0, before, d);
    OneBlocksAll(cfg, w0, before, d, after);
  }

  /** Consuming a further whole unit frees the developer, and the phase too if no other debit reverted. */
  lemma WholeUnitFrees(cfg: Config, w0: World, before: seq<Step>, d: nat, t: nat)
    requires Initial(cfg, w0) && Distinct(cfg.devWallets)
    requires
      var w := Run(cfg, w0, before);
      && w.session.Closed? && !AnyInFlight(w.rows) && Reverted(w, d)
      && ToUnits(w.consumed[d] + t) > ToUnits(w.consumed[d])
    ensures
      var w := Run(cfg, w0, before);
      var w' := Next(cfg, w, Consume(d, t));
      && !Reverted(w', d)
      && ((forall o :: o != d ==> !Reverted(w, o)) ==> |DebitPhase(cfg, w').rows| > |w'.rows|)
  {
    hide Run, DebitLive, DebitPhase;
    assert KeyInv(cfg, w0);
    RunKeys(cfg, w0, before);
    var w := Run(cfg, w0, before);
    var w' := Next(cfg, w, Consume(d, t));
    forall i | 0 <= i < |w.rows| ensures w.rows[i].key != DebitKey(d, ToUnits(w'.consumed[d])) {
      assert KeyRow(cfg, w.rows, w.consumed, i);
    }
    BlocksIff(cfg, w0, before, d);
    DebitPhaseIff(cfg, w');
    assert Owes(cfg, w'.rows, w'.consumed, d);
    if forall o :: o != d ==> !Reverted(w, o) {
      forall o ensures !Blocks(cfg, w'.rows, w'.consumed, o) {
        if o != d { BlocksIff(cfg, w0, before, o); }
      }
    }
  }

  // ---- and it happens ------------------------------------------------------------------------------------

  /** One developer, no provider; a block is final as soon as it is mined. */
  const SOLO := Config([], [Some(7)], 0, 1, 0)

  /** The developer has consumed one unit and has nothing in escrow on the chain. */
  const BROKE := World(Chain([], map[], [], 0, 0, 0, 0, map[], map[], 0, false, false, {}), [], [], [100], Closed)

  const DEBIT := DebitEscrow(7, 1)

  const DEBIT_TX := Tx(1, 0, DEBIT)

  /** The debit row through its life. */
  function DebitRow(status: Status, h: Option<Hash>): Row { Row(status, 0, DEBIT, DebitKey(0, 1), h, []) }

  const QUEUED := BROKE.chain.(queue := [Coordinator(DEBIT_TX)], sent := map[1 := DEBIT_TX], seqNo := 1)

  const MINED := QUEUED.(queue := [], height := 1, minedNonce := 1, mined := [Mined(DEBIT_TX, false, false, 1)])

  lemma DebitRecorded(w: World)
    requires w == BROKE
    ensures DoCommit(DoRecordDebits(SOLO, DoBeginDebit(SOLO, w, true, true))) == w.(rows := [DebitRow(Pending, None)])
  {
    assert DebitLive([], 7) == 0 && PlanDebits(SOLO, [100], [], 0) == [];
    assert PlanDebits(SOLO, [100], [], 1) == [DebitOrder(0, 1, 1)];
    var o := DebitOrder(0, 1, 1);
    assert [o][1..] == [] && DebitRows(SOLO, [], 1) == [];
    assert DebitRows(SOLO, [o], 0) == [DebitRow(Pending, None)];
    assert NextRowNonce([]) == 0;
  }

  lemma DebitSent(w: World, r: Row)
    requires w == BROKE.(rows := [r]) && r == DebitRow(Pending, None)
    ensures
      var sent := DebitRow(Submitted, Some(1));
      DoCommit(DoCheck(SOLO, DoSend(DoBeginRecover(w)))) == w.(chain := QUEUED, rows := [sent])
  {
    var sent := DebitRow(Submitted, Some(1));
    assert [r][0 := sent] == [sent] && [sent][0 := sent] == [sent];
    assert ReceiptAt([], 1).None?;
  }

  lemma DebitMined(c: Chain)
    requires c == QUEUED
    ensures MineBlock(c) == MINED
  {
    var tx := DEBIT_TX;
    assert c.queue == [Coordinator(tx)] && c.queue[1..] == [];
    assert Txs([]) == [] && Outsiders([]) == [] && Wrap([]) == [];
    assert Txs(c.queue) == [tx] && Outsiders(c.queue) == [];
    assert ByNonce([tx]) == [tx];
    assert Find([tx], 0) == 0 && [tx][..0] + [tx][1..] == [];
    assert Ready([tx], 0) == [tx] + Ready([], 1) && Waiting([tx], 0) == Waiting([], 1) == [];
    var c1 := c.(height := 1, queue := []);
    assert [tx][1..] == [];
    assert ExecuteAll(c1, [tx], 1) == ExecuteAll(Execute(c1, tx, 1), [], 1);
  }

  lemma DebitFails(w: World, r: Row)
    requires r == DebitRow(Submitted, Some(1)) && w == BROKE.(chain := MINED, rows := [r])
    ensures DoCommit(DoCheck(SOLO, DoSend(DoBeginRecover(w)))) == w.(rows := [DebitRow(Failed, Some(1))])
  {
    var failed := DebitRow(Failed, Some(1));
    assert [r][0 := failed] == [failed];
    assert ReceiptAt(MINED.mined, 1) == Some(0);
  }

  /** Record the debit, broadcast it, mine it, and look. */
  const REVERT :=
    [BeginDebit(true, true), RecordDebits] + [Commit, BeginRecover]
    + ([SendRow, CheckRow] + [Commit, Mine])
    + ([BeginRecover, SendRow] + [CheckRow, Commit])

  lemma RevertSteps(cfg: Config, w: World)
    ensures
      var recorded := DoCommit(DoRecordDebits(cfg, DoBeginDebit(cfg, w, true, true)));
      var sent := DoCommit(DoCheck(cfg, DoSend(DoBeginRecover(recorded))));
      var mined := sent.(chain := MineBlock(sent.chain));
      Run(cfg, w, REVERT) == DoCommit(DoCheck(cfg, DoSend(DoBeginRecover(mined))))
  {
    hide Run, DoBeginRecover, DoSend, DoCheck, DoBeginDebit, DoRecordDebits, DoCommit, MineBlock;
    var a := [BeginDebit(true, true), RecordDebits] + [Commit, BeginRecover];
    var b := [SendRow, CheckRow] + [Commit, Mine];
    var c := [BeginRecover, SendRow] + [CheckRow, Commit];
    RunAppend(cfg, w, a + b, c);
    RunAppend(cfg, w, a, b);
    RunFour(cfg, w, BeginDebit(true, true), RecordDebits, Commit, BeginRecover);
    RunFour(cfg, Run(cfg, w, a), SendRow, CheckRow, Commit, Mine);
    RunFour(cfg, Run(cfg, w, a + b), BeginRecover, SendRow, CheckRow, Commit);
  }

  /** A debit of more than the escrow reverts, and from then on blocks the phase. */
  lemma RevertReachable(w: World)
    requires w == BROKE
    ensures Initial(SOLO, w) && Distinct(SOLO.devWallets)
    ensures
      var w' := Run(SOLO, w, REVERT);
      w'.session.Closed? && !AnyInFlight(w'.rows) && Reverted(w', 0) && Blocks(SOLO, w'.rows, w'.consumed, 0)
  {
    hide Run, DoBeginRecover, DoSend, DoCheck, DoBeginDebit, DoRecordDebits, DoCommit, MineBlock, Blocks;
    RevertSteps(SOLO, w);
    DebitRecorded(w);
    var r0, r1 := DebitRow(Pending, None), DebitRow(Submitted, Some(1));
    var w1 := w.(rows := [r0]);
    DebitSent(w1, r0);
    DebitMined(QUEUED);
    var w2 := w1.(chain := MINED, rows := [r1]);
    DebitFails(w2, r1);
    var w' := Run(SOLO, w, REVERT);
    assert w'.rows[0].key == DebitKey(0, ToUnits(w'.consumed[0]));
    BlocksIff(SOLO, w, REVERT, 0);
  }
}
