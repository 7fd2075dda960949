/** What every step of the settlement machine keeps, and what follows over whole runs. */
module SettlementSafety {
  import opened Common
  import opened Money
  import opened ChainModel
  import opened Settlement

  // ---- the invariant ---------------------------------------------------------------------

  /** Everything ever broadcast belongs to a recorded row and carries that row's payload. */
  ghost predicate SentMatch(sent: map<Hash, Tx>, rows: seq<Row>, first: nat) {
    && (forall h :: h in sent ==> first <= sent[h].nonce < first + |rows|)
    && (forall h, i :: h in sent && 0 <= i < |rows| && sent[h].nonce == first + i ==>
      sent[h].payload == rows[i].payload)
  }

  /** Row `i` owns nonce `first + i`; its status and hash tell the truth about the chain. */
  ghost predicate RowOk(cfg: Config, sent: map<Hash, Tx>, mined: seq<Mined>, r: Row, i: nat) {
    && r.nonce == cfg.first + i
    && (r.status == Confirmed ==> i < |mined| && mined[i].ok)
    && (r.status == Failed ==> i < |mined| && !mined[i].ok && r.legs == [])
    && (r.txHash.Some? ==> r.txHash.value in sent && sent[r.txHash.value] == Tx(r.txHash.value, r.nonce, r.payload))
    && (r.status == Pending <==> r.txHash.None?)
    && LegsOk(cfg, r.legs)
    && (r.status != Failed ==>
      if r.payload.SettleBatch? then r.payload.payees == PayeesOf(cfg, r.legs) else r.legs == [])
  }

  ghost predicate RowsOk(cfg: Config, c: Chain, rows: seq<Row>) {
    forall i :: 0 <= i < |rows| ==> RowOk(cfg, c.sent, c.mined, rows[i], i)
  }

  ghost predicate LegsOk(cfg: Config, legs: seq<Leg>) {
    forall k :: 0 <= k < |legs| ==> WalletOf(cfg.providerWallets, legs[k].provider).Some?
  }

  ghost predicate ReservedOk(rows: seq<Row>, earned: seq<nat>) {
    forall p :: 0 <= p < |earned| ==> Reserved(rows, p) <= ToUnits(earned[p])
  }

  ghost predicate DebitsOk(cfg: Config, rows: seq<Row>, consumed: seq<nat>) {
    forall d :: 0 <= d < |consumed| && WalletOf(cfg.devWallets, d).Some? ==>
      DebitLive(rows, WalletOf(cfg.devWallets, d).value) <= ToUnits(consumed[d])
  }

  ghost predicate TableOk(cfg: Config, c: Chain, earned: seq<nat>, consumed: seq<nat>, rows: seq<Row>) {
    RowsOk(cfg, c, rows) && ReservedOk(rows, earned) && DebitsOk(cfg, rows, consumed)
  }

  /** A pool deposit that did not go through. */
  ghost predicate DepositLost(m: Mined) { m.tx.payload.DepositSettlement? && !m.ok }

  /** A batch that reverted on its own merits: it found the pool short. */
  ghost predicate FoundShort(m: Mined) { m.tx.payload.SettleBatch? && !m.ok && !m.forced }

  /** The unmined rows are one group, and the pool covers its batch unless its deposit was lost. */
  ghost predicate TailOk(mined: seq<Mined>, pool: nat, rows: seq<Row>) {
    var k := |mined|;
    k < |rows| ==>
      match rows[k].payload
      case DepositSettlement(a) =>
        |rows| == k + 2 && rows[k + 1].payload.SettleBatch? && Total(rows[k + 1].payload.payees) <= pool + a
      case SettleBatch(payees) => |rows| == k + 1 && (Total(payees) <= pool || (k > 0 && DepositLost(mined[k - 1])))
      case DebitEscrow(_, _) => forall j :: k <= j < |rows| ==> rows[j].payload.DebitEscrow?
  }

  /** A batch finds the pool short only right after a deposit that did not go through. */
  ghost predicate BatchesFunded(mined: seq<Mined>) {
    && (mined != [] ==> !FoundShort(mined[0]))
    && (forall j, k :: 0 <= j < |mined| && k == j + 1 && k < |mined| && FoundShort(mined[k]) ==> DepositLost(mined[j]))
  }

  ghost predicate SameWork(a: seq<Row>, b: seq<Row>) {
    |a| == |b| && forall i :: 0 <= i < |a| ==>
      a[i].payload == b[i].payload && a[i].nonce == b[i].nonce && a[i].key == b[i].key
  }

  ghost predicate AllMined(w: World) { |w.chain.mined| == |w.rows| }

  ghost predicate PlanOk(cfg: Config, w: World, legs: seq<Leg>) {
    && AllMined(w)
    && LegsOk(cfg, legs)
    && forall p :: 0 <= p < |w.earned| ==> Reserved(w.rows, p) + LegUnits(legs, p) <= ToUnits(w.earned[p])
  }

  function OrderUnits(cfg: Config, orders: seq<DebitOrder>, w: Wallet): nat {
    if orders == [] then 0
    else
      (if WalletOf(cfg.devWallets, orders[0].dev) == Some(w) then orders[0].owed else 0)
      + OrderUnits(cfg, orders[1..], w)
  }

  ghost predicate OrdersOk(cfg: Config, w: World, orders: seq<DebitOrder>) {
    && AllMined(w)
    && (forall k :: 0 <= k < |orders| ==> WalletOf(cfg.devWallets, orders[k].dev).Some?)
    && forall d :: 0 <= d < |w.consumed| && WalletOf(cfg.devWallets, d).Some? ==>
      var v := WalletOf(cfg.devWallets, d).value;
      DebitLive(w.rows, v) + OrderUnits(cfg, orders, v) <= ToUnits(w.consumed[d])
  }

  ghost predicate SessionOk(cfg: Config, w: World) {
    match w.session
    case Closed => true
    case Recovering(rs, next, _, sent) =>
      && SameWork(rs, w.rows) && TableOk(cfg, w.chain, w.earned, w.consumed, rs)
      && (sent ==> next < |rs| && rs[next].txHash.Some?)
    case Planned(legs) => PlanOk(cfg, w, legs)
    case Numbered(legs, base) => PlanOk(cfg, w, legs) && base == cfg.first + |w.rows|
    case DebitPlanned(orders) => OrdersOk(cfg, w, orders)
    case Recorded(rs) =>
      && AllMined(w) && w.rows <= rs
      && TableOk(cfg, w.chain, w.earned, w.consumed, rs) && TailOk(w.chain.mined, w.chain.pool, rs)
  }

  /** The durable half: the chain and the committed table agree. */
  ghost predicate DurableOk(cfg: Config, c: Chain, rows: seq<Row>, earned: seq<nat>, consumed: seq<nat>) {
    && ChainOk(c, cfg.first)
    && SentMatch(c.sent, rows, cfg.first)
    && TableOk(cfg, c, earned, consumed, rows)
    && TailOk(c.mined, c.pool, rows)
    && BatchesFunded(c.mined)
    && |earned| == |cfg.providerWallets| && |consumed| == |cfg.devWallets|
  }

  ghost predicate Inv(cfg: Config, w: World) {
    DurableOk(cfg, w.chain, w.rows, w.earned, w.consumed) && SessionOk(cfg, w)
  }

  /** Wallet addresses are unique columns. */
  ghost predicate Distinct(ws: seq<Option<Wallet>>) {
    forall i, j :: 0 <= i < |ws| && 0 <= j < |ws| && ws[i].Some? && ws[i] == ws[j] ==> i == j
  }

  // ---- sums over the table ------------------------------------------------------------------

  lemma ReservedAppend(rows: seq<Row>, r: Row, p: nat)
    ensures Reserved(rows + [r], p) == Reserved(rows, p) + if Live(r) then LegUnits(r.legs, p) else 0
    ensures forall w :: DebitLive(rows + [r], w) == DebitLive(rows, w) + if Live(r) then DebitOf(r.payload, w) else 0
  {
    assert (rows + [r])[..|rows + [r]| - 1] == rows;
  }

  /** Replacing a row by one that claims no more leaves no sum larger. */
  lemma {:induction false} ReservedUpdate(rows: seq<Row>, i: nat, r: Row, p: nat)
    requires i < |rows|
    requires Live(r) ==> Live(rows[i]) && r.legs == rows[i].legs
    ensures Reserved(rows[i := r], p) <= Reserved(rows, p)
    decreases |rows|
  {
    var n := |rows| - 1;
    if i < n {
      assert rows[i := r][..n] == rows[..n][i := r];
      ReservedUpdate(rows[..n], i, r, p);
    } else {
      assert rows[i := r][..n] == rows[..n];
    }
  }

  lemma {:induction false} DebitLiveUpdate(rows: seq<Row>, i: nat, r: Row, w: Wallet)
    requires i < |rows|
    requires Live(r) ==> Live(rows[i])
    requires r.payload == rows[i].payload
    ensures DebitLive(rows[i := r], w) <= DebitLive(rows, w)
    decreases |rows|
  {
    var n := |rows| - 1;
    if i < n {
      assert rows[i := r][..n] == rows[..n][i := r];
      DebitLiveUpdate(rows[..n], i, r, w);
    } else {
      assert rows[i := r][..n] == rows[..n];
    }
  }

  lemma TableUpdate(cfg: Config, w: World, rows: seq<Row>, i: nat, r: Row)
    requires TableOk(cfg, w.chain, w.earned, w.consumed, rows) && i < |rows|
    requires Live(r) ==> Live(rows[i]) && r.legs == rows[i].legs
    requires r.payload == rows[i].payload
    requires RowOk(cfg, w.chain.sent, w.chain.mined, r, i)
    ensures TableOk(cfg, w.chain, w.earned, w.consumed, rows[i := r])
  {
    forall p | 0 <= p < |w.earned| ensures Reserved(rows[i := r], p) <= ToUnits(w.earned[p]) {
      ReservedUpdate(rows, i, r, p);
    }
    forall d | 0 <= d < |w.consumed| && WalletOf(cfg.devWallets, d).Some?
      ensures DebitLive(rows[i := r], WalletOf(cfg.devWallets, d).value) <= ToUnits(w.consumed[d])
    {
      DebitLiveUpdate(rows, i, r, WalletOf(cfg.devWallets, d).value);
    }
  }

  /** With every row resolved, every recorded nonce has been mined, and the next one is free. */
  lemma ResolvedMined(cfg: Config, w: World)
    requires Inv(cfg, w) && !AnyInFlight(w.rows)
    ensures AllMined(w)
  {
    MinedRecorded(cfg, w);
    if |w.rows| > 0 {
      assert RowOk(cfg, w.chain.sent, w.chain.mined, w.rows[|w.rows| - 1], |w.rows| - 1);
      assert !InFlight(w.rows[|w.rows| - 1]);
    }
  }

  /** What was mined at a nonce is the payload of the row holding it. */
  lemma MinedRecorded(cfg: Config, w: World)
    requires HistoryOk(w.chain.mined, w.chain.sent, cfg.first) && SentMatch(w.chain.sent, w.rows, cfg.first)
    ensures |w.chain.mined| <= |w.rows|
    ensures forall i :: 0 <= i < |w.chain.mined| ==> w.chain.mined[i].tx.payload == w.rows[i].payload
  {
    var mined := w.chain.mined;
    forall i | 0 <= i < |mined| ensures i < |w.rows| && mined[i].tx.payload == w.rows[i].payload {
      assert WasSent(w.chain.sent, mined[i].tx);
    }
    if mined != [] { assert WasSent(w.chain.sent, mined[|mined| - 1].tx); }
  }

  lemma {:induction false} NextRowNonceIs(cfg: Config, rows: seq<Row>)
    requires forall i :: 0 <= i < |rows| ==> rows[i].nonce == cfg.first + i
    ensures rows != [] ==> NextRowNonce(rows) == cfg.first + |rows|
    decreases |rows|
  {
    if rows != [] { NextRowNonceIs(cfg, rows[..|rows| - 1]); }
  }

  lemma BaseNonceIs(cfg: Config, w: World)
    requires Inv(cfg, w) && AllMined(w)
    ensures BaseNonce(w.chain, w.rows) == cfg.first + |w.rows|
  {
    forall i | 0 <= i < |w.rows| ensures w.rows[i].nonce == cfg.first + i {
      assert RowOk(cfg, w.chain.sent, w.chain.mined, w.rows[i], i);
    }
    NextRowNonceIs(cfg, w.rows);
  }

  // ---- the chain moves ----------------------------------------------------------------------

  /** The chain moved on: nothing mined or sent is forgotten. */
  ghost predicate Extends(c: Chain, c': Chain) {
    c.mined <= c'.mined && forall h :: h in c.sent ==> h in c'.sent && c'.sent[h] == c.sent[h]
  }

  /** Row facts survive any growth of the chain's history. */
  lemma RowsKept(cfg: Config, c: Chain, c': Chain, rows: seq<Row>)
    requires RowsOk(cfg, c, rows)
    requires Extends(c, c')
    ensures RowsOk(cfg, c', rows)
  {
    forall i | 0 <= i < |rows| ensures RowOk(cfg, c'.sent, c'.mined, rows[i], i) {
      assert RowOk(cfg, c.sent, c.mined, rows[i], i);
    }
  }

  lemma ExecuteKeeps(cfg: Config, c: Chain, rows: seq<Row>, t: Tx, block: nat)
    requires ChainOk(c, cfg.first) && SentMatch(c.sent, rows, cfg.first)
    requires TailOk(c.mined, c.pool, rows) && BatchesFunded(c.mined)
    requires t.nonce == c.minedNonce && WasSent(c.sent, t)
    ensures TailOk(Execute(c, t, block).mined, Execute(c, t, block).pool, rows)
    ensures BatchesFunded(Execute(c, t, block).mined)
  {
    var k := |c.mined|;
    assert t.payload == rows[k].payload;
    var c' := Execute(c, t, block);
    forall i, j | 0 <= i < |c'.mined| && j == i + 1 && j < |c'.mined| && FoundShort(c'.mined[j])
      ensures DepositLost(c'.mined[i])
    {
      if j < k {
        assert FoundShort(c.mined[j]) && c'.mined[i] == c.mined[i];
      }
    }
  }

  lemma {:induction false} ExecuteAllKeeps(cfg: Config, c: Chain, rows: seq<Row>, txs: seq<Tx>, block: nat)
    requires ChainOk(c, cfg.first) && SentMatch(c.sent, rows, cfg.first)
    requires TailOk(c.mined, c.pool, rows) && BatchesFunded(c.mined)
    requires forall j :: 0 <= j < |txs| ==> txs[j].nonce == c.minedNonce + j && WasSent(c.sent, txs[j])
    ensures TailOk(ExecuteAll(c, txs, block).mined, ExecuteAll(c, txs, block).pool, rows)
    ensures BatchesFunded(ExecuteAll(c, txs, block).mined)
    decreases |txs|
  {
    hide ChainOk, Execute, TailOk, BatchesFunded;
    if txs != [] {
      ExecuteOk(c, txs[0], block, cfg.first);
      ExecuteFrame(c, txs[0], block);
      ExecuteKeeps(cfg, c, rows, txs[0], block);
      ExecuteAllKeeps(cfg, Execute(c, txs[0], block), rows, txs[1..], block);
    }
  }

  lemma MineBlockKeeps(cfg: Config, c: Chain, rows: seq<Row>)
    requires ChainOk(c, cfg.first) && SentMatch(c.sent, rows, cfg.first)
    requires TailOk(c.mined, c.pool, rows) && BatchesFunded(c.mined)
    ensures TailOk(MineBlock(c).mined, MineBlock(c).pool, rows) && BatchesFunded(MineBlock(c).mined)
  {
    hide ChainOk, ExecuteAll, TailOk, BatchesFunded, SentMatch;
    if !c.holdPending {
      var d := ByNonce(Txs(c.queue));
      var c1 := c.(escrow := ActAllOutside(c.escrow, Outsiders(c.queue)), height := c.height + 1,
      queue := Wrap(Waiting(d, c.minedNonce)));
      BlockReady(c, cfg.first, c1, Ready(d, c.minedNonce));
      ExecuteAllKeeps(cfg, c1, rows, Ready(d, c.minedNonce), c.height + 1);
    }
  }

  /** A chain step that only grows the history and never shrinks the pool of a settled table. */
  lemma SessionKept(cfg: Config, w: World, w': World)
    requires SessionOk(cfg, w)
    requires w' == w.(chain := w'.chain)
    requires Extends(w.chain, w'.chain)
    requires AllMined(w) ==> w'.chain.mined == w.chain.mined && w.chain.pool <= w'.chain.pool
    ensures SessionOk(cfg, w')
  {
    if w.session.Recovering? || w.session.Recorded? { RowsKept(cfg, w.chain, w'.chain, w.session.rows); }
  }

  lemma MineInv(cfg: Config, w: World)
    requires Inv(cfg, w)
    ensures Inv(cfg, w.(chain := MineBlock(w.chain)))
  {
    var w' := w.(chain := MineBlock(w.chain));
    MineBlockOk(w.chain, cfg.first);
    MineBlockKeeps(cfg, w.chain, w.rows);
    RowsKept(cfg, w.chain, w'.chain, w.rows);
    MinedRecorded(cfg, w');
    SessionKept(cfg, w, w');
  }

  /** New earnings and consumption only raise the bounds the table is held to. */
  lemma LedgerInv(cfg: Config, w: World, w': World)
    requires Inv(cfg, w)
    requires w' == w.(earned := w'.earned, consumed := w'.consumed)
    requires |w'.earned| == |w.earned| && |w'.consumed| == |w.consumed|
    requires forall p :: 0 <= p < |w.earned| ==> ToUnits(w.earned[p]) <= ToUnits(w'.earned[p])
    requires forall d :: 0 <= d < |w.consumed| ==> ToUnits(w.consumed[d]) <= ToUnits(w'.consumed[d])
    ensures Inv(cfg, w')
  {
    BoundsRaised(cfg, w, w', w.rows);
    if w.session.Recovering? || w.session.Recorded? { BoundsRaised(cfg, w, w', w.session.rows); }
  }

  lemma BoundsRaised(cfg: Config, w: World, w': World, rows: seq<Row>)
    requires TableOk(cfg, w.chain, w.earned, w.consumed, rows)
    requires w' == w.(earned := w'.earned, consumed := w'.consumed)
    requires |w'.earned| == |w.earned| && |w'.consumed| == |w.consumed|
    requires forall p :: 0 <= p < |w.earned| ==> ToUnits(w.earned[p]) <= ToUnits(w'.earned[p])
    requires forall d :: 0 <= d < |w.consumed| ==> ToUnits(w.consumed[d]) <= ToUnits(w'.consumed[d])
    ensures TableOk(cfg, w'.chain, w'.earned, w'.consumed, rows)
  {
  }

  /** Outside funding, queued outside actions and the fault switches leave the history alone. */
  lemma ControlInv(cfg: Config, w: World, w': World)
    requires Inv(cfg, w)
    requires w' == w.(chain := w'.chain)
    requires w'.chain.mined == w.chain.mined && w'.chain.sent == w.chain.sent
    requires w'.chain.minedNonce == w.chain.minedNonce && w'.chain.seqNo == w.chain.seqNo
    requires w'.chain.earnings == w.chain.earnings
    requires w.chain.pool <= w'.chain.pool && w'.chain.pool - w.chain.pool == w'.chain.funded - w.chain.funded
    requires QueueOk(w'.chain.queue, w'.chain.sent)
    ensures Inv(cfg, w')
  {
    RowsKept(cfg, w.chain, w'.chain, w.rows);
    SessionKept(cfg, w, w');
  }

  lemma EnvironmentInv(cfg: Config, w: World, s: Step)
    requires Inv(cfg, w)
    requires s.Earn? || s.Consume? || s.Fund? || s.Act? || s.FailNextSend? || s.HoldPending? || s.ForceRevert?
    ensures Inv(cfg, Next(cfg, w, s))
  {
    if s.Earn? || s.Consume? {
      LedgerInv(cfg, w, Next(cfg, w, s));
    } else {
      ControlInv(cfg, w, Next(cfg, w, s));
    }
  }

  // ---- recovery ---------------------------------------------------------------------------

  lemma BroadcastMatch(cfg: Config, c: Chain, rows: seq<Row>, i: nat)
    requires ChainOk(c, cfg.first) && SentMatch(c.sent, rows, cfg.first) && i < |rows| && !c.failNextSend
    ensures ChainOk(Broadcast(c, cfg.first + i, rows[i].payload).0, cfg.first)
    ensures SentMatch(Broadcast(c, cfg.first + i, rows[i].payload).0.sent, rows, cfg.first)
    ensures Extends(c, Broadcast(c, cfg.first + i, rows[i].payload).0)
  {
    BroadcastOk(c, cfg.first + i, rows[i].payload, cfg.first);
  }

  lemma BroadcastInv(cfg: Config, w: World, i: nat, nonce: nat, payload: Payload, c: Chain)
    requires Inv(cfg, w) && i < |w.rows| && !w.chain.failNextSend
    requires w.session.Recovering?
    requires nonce == cfg.first + i && payload == w.rows[i].payload && c == Broadcast(w.chain, nonce, payload).0
    ensures Inv(cfg, w.(chain := c))
  {
    hide ChainOk, SentMatch, RowsOk, ReservedOk, DebitsOk;
    BroadcastMatch(cfg, w.chain, w.rows, i);
    RowsKept(cfg, w.chain, c, w.rows);
    RowsKept(cfg, w.chain, c, w.session.rows);
    var w' := w.(chain := c);
    assert TableOk(cfg, w'.chain, w'.earned, w'.consumed, w.rows);
    assert TableOk(cfg, w'.chain, w'.earned, w'.consumed, w.session.rows);
    assert SessionOk(cfg, w');
  }

  lemma SameWorkUpdate(rows: seq<Row>, rs: seq<Row>, i: nat, r: Row)
    requires SameWork(rs, rows) && i < |rs|
    requires r.payload == rs[i].payload && r.nonce == rs[i].nonce && r.key == rs[i].key
    ensures SameWork(rs[i := r], rows)
  {
  }

  /** A session that recovers may change one row's status and hash. */
  lemma RecoveringUpdate(cfg: Config, w: World, r: Row, next: nat, sent: bool)
    requires SessionOk(cfg, w) && w.session.Recovering? && w.session.next < |w.session.rows|
    requires var old_ := w.session.rows[w.session.next];
      && (Live(r) ==> Live(old_) && r.legs == old_.legs)
      && r.payload == old_.payload && r.nonce == old_.nonce && r.key == old_.key
    requires RowOk(cfg, w.chain.sent, w.chain.mined, r, w.session.next)
    requires sent ==> next == w.session.next && r.txHash.Some?
    ensures SessionOk(cfg, w.(session := Recovering(w.session.rows[w.session.next := r], next, w.session.latest, sent)))
  {
    TableUpdate(cfg, w, w.session.rows, w.session.next, r);
    SameWorkUpdate(w.rows, w.session.rows, w.session.next, r);
  }

  /** The broadcast went out: the session may remember its hash. */
  lemma SentRow(cfg: Config, c: Chain, r: Row, i: nat)
    requires RowOk(cfg, c.sent, c.mined, r, i) && InFlight(r) && !c.failNextSend
    ensures
      var (c', h) := Broadcast(c, r.nonce, r.payload);
      RowOk(cfg, c'.sent, c'.mined, r.(txHash := h, status := Submitted), i)
  {
  }

  lemma RebroadcastInv(cfg: Config, w: World, r: Row, h: Option<Hash>, c: Chain)
    requires Inv(cfg, w) && w.session.Recovering? && !w.chain.failNextSend
    requires w.session.next < |w.session.rows| && r == w.session.rows[w.session.next] && InFlight(r)
    requires (c, h) == Broadcast(w.chain, r.nonce, r.payload)
    ensures Inv(cfg, w.(chain := c))
    ensures RowOk(cfg, c.sent, c.mined, r.(txHash := h, status := Submitted), w.session.next)
  {
    assert RowOk(cfg, w.chain.sent, w.chain.mined, r, w.session.next);
    assert r.payload == w.rows[w.session.next].payload;
    BroadcastInv(cfg, w, w.session.next, r.nonce, r.payload, c);
    SentRow(cfg, w.chain, r, w.session.next);
  }

  /** A broadcast is made for a durable row at the row's own nonce, and says what the row says. */
  lemma SendInv(cfg: Config, w: World)
    requires Inv(cfg, w)
    ensures Inv(cfg, DoSend(w))
  {
    var ss := w.session;
    if ss.Recovering? && !ss.sent && ss.next < |ss.rows| {
      var r := ss.rows[ss.next];
      if InFlight(r) && NeedsSend(r) {
        var (c, h) := Broadcast(w.chain, r.nonce, r.payload);
        if w.chain.failNextSend {
          ControlInv(cfg, w, w.(chain := c));
        } else {
          RebroadcastInv(cfg, w, r, h, c);
          RecoveringUpdate(cfg, w.(chain := c), r.(txHash := h, status := Submitted), ss.next, true);
        }
      } else if InFlight(r) {
        assert RowOk(cfg, w.chain.sent, w.chain.mined, r, ss.next);
      }
    }
  }

  /** A receipt under a row's hash is the receipt of the row's own nonce. */
  lemma ReceiptIsOwn(cfg: Config, c: Chain, r: Row, i: nat)
    requires ChainOk(c, cfg.first) && RowOk(cfg, c.sent, c.mined, r, i)
    requires r.txHash.Some? && ReceiptAt(c.mined, r.txHash.value).Some?
    ensures ReceiptAt(c.mined, r.txHash.value).value == i
  {
    var k := ReceiptAt(c.mined, r.txHash.value).value;
    assert WasSent(c.sent, c.mined[k].tx);
  }

  lemma CheckInv(cfg: Config, w: World)
    requires Inv(cfg, w)
    ensures Inv(cfg, DoCheck(cfg, w))
  {
    var ss := w.session;
    if ss.Recovering? && ss.sent && ss.next < |ss.rows| {
      var i := ss.next;
      var r := ss.rows[i];
      assert RowOk(cfg, w.chain.sent, w.chain.mined, r, i);
      var r' := Resolve(cfg, w.chain.mined, ss.latest, r);
      if ReceiptAt(w.chain.mined, r.txHash.value).Some? { ReceiptIsOwn(cfg, w.chain, r, i); }
      RecoveringUpdate(cfg, w, r', i + 1, false);
    }
  }

  // ---- recording ----------------------------------------------------------------------------

  lemma {:induction false} LegUnitsAppend(a: seq<Leg>, b: seq<Leg>, p: nat)
    ensures LegUnits(a + b, p) == LegUnits(a, p) + LegUnits(b, p)
  {
    if a == [] {
      assert a + b == b;
    } else {
      assert (a + b)[1..] == a[1..] + b;
      LegUnitsAppend(a[1..], b, p);
    }
  }

  /** A plan gives each provider at most what it is owed beyond its reservations. */
  lemma {:induction false} PlanLegsIs(cfg: Config, earned: seq<nat>, rows: seq<Row>, n: nat, p: nat)
    requires n <= |earned|
    ensures LegsOk(cfg, PlanLegs(cfg, earned, rows, n))
    ensures LegUnits(PlanLegs(cfg, earned, rows, n), p) ==
            if p < n && WalletOf(cfg.providerWallets, p).Some? && ToUnits(earned[p]) > Reserved(rows, p)
            then ToUnits(earned[p]) - Reserved(rows, p) else 0
  {
    if n > 0 {
      var q := n - 1;
      PlanLegsIs(cfg, earned, rows, q, p);
      var owed := ToUnits(earned[q]) - Reserved(rows, q);
      if owed > 0 && WalletOf(cfg.providerWallets, q).Some? {
        LegUnitsAppend(PlanLegs(cfg, earned, rows, q), [Leg(q, owed)], p);
      } else {
        assert PlanLegs(cfg, earned, rows, n) == PlanLegs(cfg, earned, rows, q);
      }
    }
  }

  lemma PlanInv(cfg: Config, w: World, force: bool, elapsed: bool)
    requires Inv(cfg, w)
    ensures Inv(cfg, DoBeginBatch(cfg, w, force, elapsed))
  {
    var w' := DoBeginBatch(cfg, w, force, elapsed);
    if w'.session != w.session {
      ResolvedMined(cfg, w);
      forall p: nat ensures LegsOk(cfg, w'.session.legs) && LegUnits(w'.session.legs, p) ==
            if p < |w.earned| && WalletOf(cfg.providerWallets, p).Some? && ToUnits(w.earned[p]) > Reserved(w.rows, p)
            then ToUnits(w.earned[p]) - Reserved(w.rows, p) else 0
      {
        PlanLegsIs(cfg, w.earned, w.rows, |w.earned|, p);
      }
    }
  }

  lemma {:induction false} TotalIs(cfg: Config, legs: seq<Leg>)
    requires LegsOk(cfg, legs)
    ensures Total(PayeesOf(cfg, legs)) == TotalUnits(legs)
  {
    if legs != [] {
      assert LegsOk(cfg, legs[1..]);
      TotalIs(cfg, legs[1..]);
      var w := WalletOf(cfg.providerWallets, legs[0].provider);
      assert PayeesOf(cfg, legs)[1..] == PayeesOf(cfg, legs[1..]);
    }
  }

  /** Appending rows that claim nothing beyond a bound. */
  lemma AppendRow(cfg: Config, c: Chain, rows: seq<Row>, r: Row)
    requires RowsOk(cfg, c, rows) && RowOk(cfg, c.sent, c.mined, r, |rows|)
    ensures RowsOk(cfg, c, rows + [r])
  {
  }

  lemma BatchReserved(rows: seq<Row>, added: seq<Row>, legs: seq<Leg>, p: nat)
    requires 1 <= |added| <= 2 && added[|added| - 1].legs == legs && Live(added[|added| - 1])
    requires |added| == 2 ==> added[0].legs == []
    ensures Reserved(rows + added, p) == Reserved(rows, p) + LegUnits(legs, p)
  {
    var last := added[|added| - 1];
    if |added| == 2 {
      ReservedAppend(rows, added[0], p);
      ReservedAppend(rows + [added[0]], last, p);
      assert rows + added == rows + [added[0]] + [last];
    } else {
      ReservedAppend(rows, last, p);
      assert added == [last];
    }
  }

  lemma BatchRowsOk(cfg: Config, c: Chain, rows: seq<Row>, added: seq<Row>)
    requires RowsOk(cfg, c, rows) && 1 <= |added| <= 2
    requires forall k :: 0 <= k < |added| ==> RowOk(cfg, c.sent, c.mined, added[k], |rows| + k)
    ensures RowsOk(cfg, c, rows + added)
  {
    hide RowOk;
    AppendRow(cfg, c, rows, added[0]);
    if |added| == 2 {
      AppendRow(cfg, c, rows + [added[0]], added[1]);
      assert rows + added == rows + [added[0]] + [added[1]];
    } else {
      assert added == [added[0]];
    }
  }

  lemma BatchTable(cfg: Config, w: World, legs: seq<Leg>, pool: nat)
    requires DurableOk(cfg, w.chain, w.rows, w.earned, w.consumed) && PlanOk(cfg, w, legs)
    ensures TableOk(cfg, w.chain, w.earned, w.consumed,
        w.rows + BatchRows(cfg, legs, cfg.first + |w.rows|, pool))
  {
    hide ChainOk, SentMatch, TailOk, BatchesFunded, Reserved, LegUnits, RowsOk, DebitsOk;
    var added := BatchRows(cfg, legs, cfg.first + |w.rows|, pool);
    BatchRowsOk(cfg, w.chain, w.rows, added);
    forall p: nat ensures Reserved(w.rows + added, p) == Reserved(w.rows, p) + LegUnits(legs, p) {
      BatchReserved(w.rows, added, legs, p);
    }
    BatchDebits(cfg, w, added);
  }

  /** Rows that debit nobody leave the debit sums as they are. */
  lemma BatchDebits(cfg: Config, w: World, added: seq<Row>)
    requires DebitsOk(cfg, w.rows, w.consumed)
    requires 1 <= |added| <= 2 && forall k :: 0 <= k < |added| ==> !added[k].payload.DebitEscrow?
    ensures DebitsOk(cfg, w.rows + added, w.consumed)
  {
    ReservedAppend(w.rows, added[0], 0);
    if |added| == 2 {
      ReservedAppend(w.rows + [added[0]], added[1], 0);
      assert w.rows + added == w.rows + [added[0]] + [added[1]];
    } else {
      assert added == [added[0]];
    }
  }

  lemma RecordBatchInv(cfg: Config, w: World)
    requires Inv(cfg, w)
    ensures Inv(cfg, DoRecordBatch(cfg, w))
  {
    if w.session.Numbered? {
      hide ChainOk, SentMatch, TableOk, BatchesFunded;
      var legs := w.session.legs;
      BatchTable(cfg, w, legs, w.chain.pool);
      TotalIs(cfg, legs);
      var rs := w.rows + BatchRows(cfg, legs, w.session.base, w.chain.pool);
      assert TailOk(w.chain.mined, w.chain.pool, rs);
    }
  }

  // ---- debits -----------------------------------------------------------------------------

  lemma {:induction false} OrderUnitsAppend(cfg: Config, a: seq<DebitOrder>, b: seq<DebitOrder>, w: Wallet)
    ensures OrderUnits(cfg, a + b, w) == OrderUnits(cfg, a, w) + OrderUnits(cfg, b, w)
  {
    if a == [] {
      assert a + b == b;
    } else {
      assert (a + b)[1..] == a[1..] + b;
      OrderUnitsAppend(cfg, a[1..], b, w);
    }
  }

  /** The orders planned for one developer's wallet: what it consumed beyond its live debits. */
  lemma {:induction false} PlanDebitsIs(cfg: Config, consumed: seq<nat>, rows: seq<Row>, n: nat, d: nat)
    requires n <= |consumed| == |cfg.devWallets| && Distinct(cfg.devWallets)
    requires d < |consumed| && cfg.devWallets[d].Some?
    ensures OrderUnits(cfg, PlanDebits(cfg, consumed, rows, n), cfg.devWallets[d].value) ==
            if d < n && ToUnits(consumed[d]) > DebitLive(rows, cfg.devWallets[d].value)
            then ToUnits(consumed[d]) - DebitLive(rows, cfg.devWallets[d].value) else 0
  {
    if n > 0 {
      var q := n - 1;
      var v := cfg.devWallets[d].value;
      PlanDebitsIs(cfg, consumed, rows, q, d);
      var rest := PlanDebits(cfg, consumed, rows, q);
      var w := cfg.devWallets[q];
      if w.Some? && ToUnits(consumed[q]) > DebitLive(rows, w.value) {
        OrderUnitsAppend(cfg, rest,
          [DebitOrder(q, ToUnits(consumed[q]), ToUnits(consumed[q]) - DebitLive(rows, w.value))], v);
      } else {
        assert PlanDebits(cfg, consumed, rows, n) == rest;
      }
    }
  }

  lemma {:induction false} PlanDebitsWallets(cfg: Config, consumed: seq<nat>, rows: seq<Row>, n: nat)
    requires n <= |consumed|
    ensures forall k :: 0 <= k < |PlanDebits(cfg, consumed, rows, n)| ==>
      WalletOf(cfg.devWallets, PlanDebits(cfg, consumed, rows, n)[k].dev).Some?
  {
    if n > 0 { PlanDebitsWallets(cfg, consumed, rows, n - 1); }
  }

  ghost predicate Sorted(orders: seq<DebitOrder>, n: nat) {
    && (forall k :: 0 <= k < |orders| ==> orders[k].dev < n)
    && (forall j, k :: 0 <= j < k < |orders| ==> orders[j].dev < orders[k].dev)
  }

  lemma {:induction false} PlanDebitsSorted(cfg: Config, consumed: seq<nat>, rows: seq<Row>, n: nat)
    requires n <= |consumed|
    ensures Sorted(PlanDebits(cfg, consumed, rows, n), n)
  {
    if n > 0 {
      PlanDebitsSorted(cfg, consumed, rows, n - 1);
      var rest := PlanDebits(cfg, consumed, rows, n - 1);
      var orders := PlanDebits(cfg, consumed, rows, n);
      assert Sorted(rest, n - 1);
      assert forall k :: 0 <= k < |orders| ==>
        if k < |rest| then orders[k] == rest[k] else k == |rest| && orders[k].dev == n - 1;
    }
  }

  lemma BeginDebitInv(cfg: Config, w: World, force: bool, elapsed: bool)
    requires Inv(cfg, w) && Distinct(cfg.devWallets)
    ensures Inv(cfg, DoBeginDebit(cfg, w, force, elapsed))
  {
    var w' := DoBeginDebit(cfg, w, force, elapsed);
    if w.session.Closed? && !AnyInFlight(w.rows) && (force || elapsed) {
      ResolvedMined(cfg, w);
      var orders := PlanDebits(cfg, w.consumed, w.rows, |w.consumed|);
      PlanDebitsWallets(cfg, w.consumed, w.rows, |w.consumed|);
      forall d | 0 <= d < |w.consumed| && WalletOf(cfg.devWallets, d).Some?
        ensures var v := WalletOf(cfg.devWallets, d).value;
          DebitLive(w.rows, v) + OrderUnits(cfg, orders, v) <= ToUnits(w.consumed[d])
      {
        PlanDebitsIs(cfg, w.consumed, w.rows, |w.consumed|, d);
      }
      assert OrdersOk(cfg, w', orders);
    }
  }

  /** Recording orders debits exactly what they say and reserves nothing. */
  lemma {:induction false} DebitRowsIs(cfg: Config, c: Chain, rows: seq<Row>, orders: seq<DebitOrder>)
    requires RowsOk(cfg, c, rows)
    requires forall k :: 0 <= k < |orders| ==> WalletOf(cfg.devWallets, orders[k].dev).Some?
    ensures RowsOk(cfg, c, rows + DebitRows(cfg, orders, cfg.first + |rows|))
    ensures forall w ::
      DebitLive(rows + DebitRows(cfg, orders, cfg.first + |rows|), w) == DebitLive(rows, w) + OrderUnits(cfg, orders, w)
    ensures forall p: nat :: Reserved(rows + DebitRows(cfg, orders, cfg.first + |rows|), p) == Reserved(rows, p)
    decreases |orders|
  {
    var all := rows + DebitRows(cfg, orders, cfg.first + |rows|);
    if orders == [] {
      assert all == rows;
    } else {
      var r := DebitRows(cfg, orders, cfg.first + |rows|)[0];
      AppendRow(cfg, c, rows, r);
      DebitRowsIs(cfg, c, rows + [r], orders[1..]);
      assert all == rows + [r] + DebitRows(cfg, orders[1..], cfg.first + |rows| + 1);
      forall p: nat ensures Reserved(rows + [r], p) == Reserved(rows, p) { ReservedAppend(rows, r, p); }
      ReservedAppend(rows, r, 0);
    }
  }

  lemma {:induction false} DebitRowsDebit(cfg: Config, orders: seq<DebitOrder>, base: nat)
    ensures |DebitRows(cfg, orders, base)| == |orders|
    ensures forall k :: 0 <= k < |orders| ==>
      DebitRows(cfg, orders, base)[k].payload.DebitEscrow?
      && DebitRows(cfg, orders, base)[k].key == DebitKey(orders[k].dev, orders[k].settled)
    decreases |orders|
  {
    if orders != [] { DebitRowsDebit(cfg, orders[1..], base + 1); }
  }

  lemma DebitTable(cfg: Config, w: World, orders: seq<DebitOrder>)
    requires TableOk(cfg, w.chain, w.earned, w.consumed, w.rows) && OrdersOk(cfg, w, orders)
    ensures TableOk(cfg, w.chain, w.earned, w.consumed, w.rows + DebitRows(cfg, orders, cfg.first + |w.rows|))
  {
    DebitRowsIs(cfg, w.chain, w.rows, orders);
  }

  lemma DebitTail(cfg: Config, w: World, orders: seq<DebitOrder>)
    requires AllMined(w)
    ensures TailOk(w.chain.mined, w.chain.pool, w.rows + DebitRows(cfg, orders, cfg.first + |w.rows|))
  {
    DebitRowsDebit(cfg, orders, cfg.first + |w.rows|);
  }

  lemma RecordDebitsInv(cfg: Config, w: World)
    requires Inv(cfg, w)
    ensures Inv(cfg, DoRecordDebits(cfg, w))
  {
    if w.session.DebitPlanned? {
      hide ChainOk, SentMatch, TableOk, BatchesFunded, TailOk;
      BaseNonceIs(cfg, w);
      DebitTable(cfg, w, w.session.orders);
      DebitTail(cfg, w, w.session.orders);
    }
  }

  // ---- commit, and every step -----------------------------------------------------------------

  lemma CommitRecovered(cfg: Config, c: Chain, rows: seq<Row>, rs: seq<Row>)
    requires SentMatch(c.sent, rows, cfg.first) && TailOk(c.mined, c.pool, rows) && SameWork(rs, rows)
    ensures SentMatch(c.sent, rs, cfg.first) && TailOk(c.mined, c.pool, rs)
  {
  }

  lemma CommitInv(cfg: Config, w: World)
    requires Inv(cfg, w)
    ensures Inv(cfg, DoCommit(w))
  {
    if w.session.Recovering? { CommitRecovered(cfg, w.chain, w.rows, w.session.rows); }
    if w.session.Recorded? { assert SentMatch(w.chain.sent, w.session.rows, cfg.first); }
  }

  lemma ReserveInv(cfg: Config, w: World)
    requires Inv(cfg, w)
    ensures Inv(cfg, DoReserveNonce(w))
  {
    if w.session.Planned? { BaseNonceIs(cfg, w); }
  }

  lemma BeginRecoverInv(cfg: Config, w: World)
    requires Inv(cfg, w)
    ensures Inv(cfg, DoBeginRecover(w))
  {
  }

  lemma CrashInv(cfg: Config, w: World)
    requires Inv(cfg, w)
    ensures Inv(cfg, w.(session := Closed))
  {
  }

  /** Every step, of the engine, the ledger or the chain, keeps the invariant. */
  lemma StepInv(cfg: Config, w: World, s: Step)
    requires Inv(cfg, w) && Distinct(cfg.devWallets)
    ensures Inv(cfg, Next(cfg, w, s))
  {
    hide Inv, DoBeginRecover, DoSend, DoCheck, DoBeginBatch, DoReserveNonce, DoRecordBatch, DoBeginDebit,
      DoRecordDebits, DoCommit, MineBlock;
    match s
    case Mine => MineInv(cfg, w);
    case BeginRecover => BeginRecoverInv(cfg, w);
    case SendRow => SendInv(cfg, w);
    case CheckRow => CheckInv(cfg, w);
    case BeginBatch(force, elapsed) => PlanInv(cfg, w, force, elapsed);
    case ReserveNonce => ReserveInv(cfg, w);
    case RecordBatch => RecordBatchInv(cfg, w);
    case BeginDebit(force, elapsed) => BeginDebitInv(cfg, w, force, elapsed);
    case RecordDebits => RecordDebitsInv(cfg, w);
    case Commit => CommitInv(cfg, w);
    case Crash => CrashInv(cfg, w);
    case _ => EnvironmentInv(cfg, w, s);
  }

  lemma {:induction false} RunInv(cfg: Config, w: World, steps: seq<Step>)
    requires Inv(cfg, w) && Distinct(cfg.devWallets)
    ensures Inv(cfg, Run(cfg, w, steps))
    decreases |steps|
  {
    if steps != [] {
      StepInv(cfg, w, steps[0]);
      RunInv(cfg, Next(cfg, w, steps[0]), steps[1..]);
    }
  }

  lemma InitialInv(cfg: Config, w: World)
    requires Initial(cfg, w)
    ensures Inv(cfg, w)
  {
  }
}
