/**
 The settlement engine as a machine of small steps over durable rows, an open database
 session and the chain. Every await point of a tick is a step of its own, so chain activity
 and new ledger postings interleave anywhere, and a crash drops the open session while
 whatever it broadcast stays out there.

 Providers and developers are numbered in the order their ids sort; row `i` of the table is
 the i-th recorded transaction. The ProviderSettlement rows of a transaction are its `legs`.
 */
module Settlement {
  import opened Common
  import opened Money
  import opened ChainModel

  datatype Status = Pending | Submitted | Confirmed | Failed

  datatype Leg = Leg(provider: nat, units: nat)

  /** Batch keys carry a fresh random cycle id; a debit's key is the developer and its settled total. */
  datatype Key = Cycle | DebitKey(dev: nat, settled: nat)

  datatype Row = Row(
    status: Status, nonce: nat, payload: Payload, key: Key, txHash: Option<Hash>, legs: seq<Leg>)

  datatype DebitOrder = DebitOrder(dev: nat, settled: nat, owed: nat)

  datatype Config = Config(
    providerWallets: seq<Option<Wallet>>,
    devWallets: seq<Option<Wallet>>,
    threshold: nat,
    confirmations: nat,
    first: nat)

  datatype Session =
    | Closed
    | Recovering(rows: seq<Row>, next: nat, latest: nat, sent: bool)
    | Planned(legs: seq<Leg>)
    | Numbered(legs: seq<Leg>, base: nat)
    | DebitPlanned(orders: seq<DebitOrder>)
    | Recorded(rows: seq<Row>)

  datatype World = World(
    chain: Chain, rows: seq<Row>, earned: seq<nat>, consumed: seq<nat>, session: Session)

  datatype Step =
    // the ledger, written by other processes
    | Earn(p: nat, ticks: nat)
    | Consume(d: nat, ticks: nat)
    // the chain and its faults
    | Mine
    | Fund(amount: nat)
    | Act(act: External)
    | FailNextSend(on: bool)
    | HoldPending(on: bool)
    | ForceRevert(kind: Kind, on: bool)
    // the engine
    | BeginRecover
    | SendRow
    | CheckRow
    | BeginBatch(force: bool, elapsed: bool)
    | ReserveNonce
    | RecordBatch
    | BeginDebit(force: bool, elapsed: bool)
    | RecordDebits
    | Commit
    | Crash

  // ---- reading the table ---------------------------------------------------------------

  predicate InFlight(r: Row) { r.status == Pending || r.status == Submitted }

  predicate Live(r: Row) { r.status != Failed }

  predicate AnyInFlight(rows: seq<Row>) { exists i :: 0 <= i < |rows| && InFlight(rows[i]) }

  function LegUnits(legs: seq<Leg>, p: nat): nat {
    if legs == [] then 0
    else (if legs[0].provider == p then legs[0].units else 0) + LegUnits(legs[1..], p)
  }

  /** Units already reserved or settled for a provider, over live rows. */
  function Reserved(rows: seq<Row>, p: nat): nat {
    if rows == [] then 0
    else
      var r := rows[|rows| - 1];
      Reserved(rows[..|rows| - 1], p) + if Live(r) then LegUnits(r.legs, p) else 0
  }

  /** Units debited from a wallet, over live debit rows. */
  function DebitLive(rows: seq<Row>, w: Wallet): nat {
    if rows == [] then 0
    else
      var r := rows[|rows| - 1];
      DebitLive(rows[..|rows| - 1], w) + if Live(r) then DebitOf(r.payload, w) else 0
  }

  function NextRowNonce(rows: seq<Row>): nat {
    if rows == [] then 0
    else Max(NextRowNonce(rows[..|rows| - 1]), rows[|rows| - 1].nonce + 1)
  }

  function BaseNonce(c: Chain, rows: seq<Row>): nat { Max(c.minedNonce, NextRowNonce(rows)) }

  function WalletOf(ws: seq<Option<Wallet>>, i: nat): Option<Wallet> {
    if i < |ws| then ws[i] else None
  }

  // ---- planning a batch ------------------------------------------------------------------

  /** One leg per provider among the first `n` that is owed something and has a wallet. */
  function PlanLegs(cfg: Config, earned: seq<nat>, rows: seq<Row>, n: nat): seq<Leg>
    requires n <= |earned|
  {
    if n == 0 then []
    else
      var p := n - 1;
      var owed := ToUnits(earned[p]) - Reserved(rows, p);
      PlanLegs(cfg, earned, rows, p)
      + if owed > 0 && WalletOf(cfg.providerWallets, p).Some? then [Leg(p, owed)] else []
  }

  function TotalUnits(legs: seq<Leg>): nat {
    if legs == [] then 0 else legs[0].units + TotalUnits(legs[1..])
  }

  function PayeesOf(cfg: Config, legs: seq<Leg>): seq<Payee> {
    if legs == [] then []
    else
      var w := WalletOf(cfg.providerWallets, legs[0].provider);
      (if w.Some? then [Payee(w.value, legs[0].units)] else []) + PayeesOf(cfg, legs[1..])
  }

  function BatchRows(cfg: Config, legs: seq<Leg>, base: nat, pool: nat): seq<Row> {
    var total := TotalUnits(legs);
    var shortfall := Max(0, total - pool);
    var deposit :=
      if shortfall > 0
      then [Row(Pending, base, DepositSettlement(shortfall), Cycle, None, [])]
      else [];
    deposit + [Row(Pending, base + |deposit|, SettleBatch(PayeesOf(cfg, legs)), Cycle, None, legs)]
  }

  // ---- planning debits -------------------------------------------------------------------

  function PlanDebits(cfg: Config, consumed: seq<nat>, rows: seq<Row>, n: nat): seq<DebitOrder>
    requires n <= |consumed|
  {
    if n == 0 then []
    else
      var d := n - 1;
      var w := WalletOf(cfg.devWallets, d);
      var settled := ToUnits(consumed[d]);
      PlanDebits(cfg, consumed, rows, d)
      + if w.Some? && settled > DebitLive(rows, w.value)
        then [DebitOrder(d, settled, settled - DebitLive(rows, w.value))]
        else []
  }

  /** The unique constraint on `batch_key`: only debit keys can repeat. */
  predicate KeyTaken(rows: seq<Row>, o: DebitOrder) {
    exists i :: 0 <= i < |rows| && rows[i].key == DebitKey(o.dev, o.settled)
  }

  predicate AnyKeyTaken(rows: seq<Row>, orders: seq<DebitOrder>) {
    exists k :: 0 <= k < |orders| && KeyTaken(rows, orders[k])
  }

  function DebitRows(cfg: Config, orders: seq<DebitOrder>, base: nat): seq<Row> {
    if orders == [] then []
    else
      var o := orders[0];
      var w := WalletOf(cfg.devWallets, o.dev);
      var wallet := if w.Some? then w.value else 0;
      [Row(Pending, base, DebitEscrow(wallet, o.owed), DebitKey(o.dev, o.settled), None, [])]
      + DebitRows(cfg, orders[1..], base + 1)
  }

  // ---- recovering one row -----------------------------------------------------------------

  predicate NeedsSend(r: Row) { r.status == Pending || r.txHash.None? }

  /** Advance a row on its receipt: confirm it, or fail it and release its legs. */
  function Resolve(cfg: Config, mined: seq<Mined>, latest: nat, r: Row): Row {
    var receipt := if r.txHash.Some? then ReceiptAt(mined, r.txHash.value) else None;
    if receipt.None? then r
    else
      var m := mined[receipt.value];
      if latest as int - m.block as int + 1 < cfg.confirmations as int then r
      else if m.ok then r.(status := Confirmed)
      else r.(status := Failed, legs := [])
  }

  // ---- steps ------------------------------------------------------------------------------

  function DoBeginRecover(w: World): World {
    if w.session.Closed? then w.(session := Recovering(w.rows, 0, w.chain.height, false)) else w
  }

  /** Re-broadcast a row that was never sent, at its own nonce; skip it when the send fails. */
  function DoSend(w: World): World {
    var ss := w.session;
    if ss.Recovering? && !ss.sent && ss.next < |ss.rows| then
      var r := ss.rows[ss.next];
      if !InFlight(r) then w.(session := ss.(next := ss.next + 1))
      else if !NeedsSend(r) then w.(session := ss.(sent := true))
      else
        var (c, h) := Broadcast(w.chain, r.nonce, r.payload);
        if h.None? then w.(chain := c, session := ss.(next := ss.next + 1))
        else
          w.(chain := c,
          session := ss.(rows := ss.rows[ss.next := r.(txHash := h, status := Submitted)], sent := true))
    else w
  }

  function DoCheck(cfg: Config, w: World): World {
    var ss := w.session;
    if ss.Recovering? && ss.sent && ss.next < |ss.rows| then
      var r := Resolve(cfg, w.chain.mined, ss.latest, ss.rows[ss.next]);
      w.(session := Recovering(ss.rows[ss.next := r], ss.next + 1, ss.latest, false))
    else w
  }

  function DoBeginBatch(cfg: Config, w: World, force: bool, elapsed: bool): World {
    if w.session.Closed? && !AnyInFlight(w.rows) then
      var legs := PlanLegs(cfg, w.earned, w.rows, |w.earned|);
      var total := TotalUnits(legs);
      if total > 0 && (force || total >= cfg.threshold || elapsed)
      then w.(session := Planned(legs)) else w
    else w
  }

  function DoReserveNonce(w: World): World {
    if w.session.Planned? then w.(session := Numbered(w.session.legs, BaseNonce(w.chain, w.rows))) else w
  }

  function DoRecordBatch(cfg: Config, w: World): World {
    if w.session.Numbered? then
      w.(session := Recorded(w.rows + BatchRows(cfg, w.session.legs, w.session.base, w.chain.pool)))
    else w
  }

  function DoBeginDebit(cfg: Config, w: World, force: bool, elapsed: bool): World {
    if w.session.Closed? && !AnyInFlight(w.rows) && (force || elapsed)
    then w.(session := DebitPlanned(PlanDebits(cfg, w.consumed, w.rows, |w.consumed|))) else w
  }

  /** A repeated key violates the unique constraint, and the whole phase is rolled back. */
  function DoRecordDebits(cfg: Config, w: World): World {
    if w.session.DebitPlanned? then
      if AnyKeyTaken(w.rows, w.session.orders) then w.(session := Closed)
      else w.(session := Recorded(w.rows + DebitRows(cfg, w.session.orders, BaseNonce(w.chain, w.rows))))
    else w
  }

  function DoCommit(w: World): World {
    if w.session.Recovering? || w.session.Recorded? then w.(rows := w.session.rows, session := Closed)
    else w.(session := Closed)
  }

  function Next(cfg: Config, w: World, s: Step): World {
    match s
    case Earn(p, t) => if p < |w.earned| then w.(earned := w.earned[p := w.earned[p] + t]) else w
    case Consume(d, t) =>
      if d < |w.consumed| then w.(consumed := w.consumed[d := w.consumed[d] + t]) else w
    case Mine => w.(chain := MineBlock(w.chain))
    case Fund(a) => w.(chain := w.chain.(pool := w.chain.pool + a, funded := w.chain.funded + a))
    case Act(act) => w.(chain := w.chain.(queue := w.chain.queue + [Outside(act)]))
    case FailNextSend(on) => w.(chain := w.chain.(failNextSend := on))
    case HoldPending(on) => w.(chain := w.chain.(holdPending := on))
    case ForceRevert(k, on) =>
      w.(chain := w.chain.(revertKinds := if on then w.chain.revertKinds + {k} else w.chain.revertKinds - {k}))
    case BeginRecover => DoBeginRecover(w)
    case SendRow => DoSend(w)
    case CheckRow => DoCheck(cfg, w)
    case BeginBatch(force, elapsed) => DoBeginBatch(cfg, w, force, elapsed)
    case ReserveNonce => DoReserveNonce(w)
    case RecordBatch => DoRecordBatch(cfg, w)
    case BeginDebit(force, elapsed) => DoBeginDebit(cfg, w, force, elapsed)
    case RecordDebits => DoRecordDebits(cfg, w)
    case Commit => DoCommit(w)
    case Crash => w.(session := Closed)
  }

  function Run(cfg: Config, w: World, steps: seq<Step>): World
    decreases |steps|
  {
    if steps == [] then w else Run(cfg, Next(cfg, w, steps[0]), steps[1..])
  }

  /** A fresh deployment: an unused coordinator account, an empty table, any pool and escrow. */
  ghost predicate Initial(cfg: Config, w: World) {
    && w.chain.queue == [] && w.chain.sent == map[] && w.chain.mined == []
    && w.chain.minedNonce == cfg.first && w.chain.earnings == map[] && w.chain.pool == w.chain.funded
    && w.rows == [] && w.session == Closed
    && |w.earned| == |cfg.providerWallets| && |w.consumed| == |cfg.devWallets|
  }
}
