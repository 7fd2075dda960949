/**
 A hash the table holds for a nonce not yet mined is the hash the chain will mine there: it
 was queued last. So a row in flight can always be resolved, unless its nonce was consumed
 under another hash.
 */
module SettlementQueue {
  import opened Common
  import opened Money
  import opened ChainModel
  import opened Settlement
  import opened SettlementSafety
  import opened SettlementLiveness

  // ---- the dictionary of queued transactions ------------------------------------------------------

  function Lookup(d: seq<Tx>, n: nat): Option<Tx> {
    var i := Find(d, n);
    if i < |d| then Some(d[i]) else None
  }

  ghost predicate Unique(d: seq<Tx>) {
    forall i, k :: 0 <= i < k < |d| ==> d[i].nonce != d[k].nonce
  }

  lemma {:induction false} FindIs(d: seq<Tx>, n: nat, i: nat)
    requires i <= |d| && (i < |d| ==> d[i].nonce == n) && forall k :: 0 <= k < i ==> d[k].nonce != n
    ensures Find(d, n) == i
  {
    if i > 0 { FindIs(d[1..], n, i - 1); }
  }

  lemma LookupFirst(d: seq<Tx>, n: nat)
    requires d != []
    ensures Lookup(d, n) == if d[0].nonce == n then Some(d[0]) else Lookup(d[1..], n)
  {}

  lemma {:induction false} PutAt(d: seq<Tx>, t: Tx, n: nat)
    ensures Lookup(Put(d, t), n) == if n == t.nonce then Some(t) else Lookup(d, n)
  {
    hide Lookup;
    LookupFirst(Put(d, t), n);
    if d == [] {
      assert Put(d, t)[1..] == [];
    } else {
      LookupFirst(d, n);
      var rest := if d[0].nonce == t.nonce then d[1..] else Put(d[1..], t);
      assert Put(d, t)[1..] == rest;
      if d[0].nonce != t.nonce { PutAt(d[1..], t, n); }
    }
  }

  lemma {:induction false} PutUnique(d: seq<Tx>, t: Tx)
    requires Unique(d)
    ensures Unique(Put(d, t))
  {
    if d != [] && d[0].nonce != t.nonce {
      PutUnique(d[1..], t);
      var rest := Put(d[1..], t);
      forall k | 0 <= k < |rest| ensures rest[k].nonce != d[0].nonce {
        PutFrom(d[1..], t, rest[k]);
      }
    }
  }

  lemma {:induction false} PutNew(d: seq<Tx>, t: Tx)
    requires forall k :: 0 <= k < |d| ==> d[k].nonce != t.nonce
    ensures Put(d, t) == d + [t]
  {
    if d != [] { PutNew(d[1..], t); }
  }

  lemma {:induction false} ByNonceUnique(txs: seq<Tx>)
    ensures Unique(ByNonce(txs))
    decreases |txs|
  {
    if txs != [] {
      ByNonceUnique(txs[..|txs| - 1]);
      PutUnique(ByNonce(txs[..|txs| - 1]), txs[|txs| - 1]);
    }
  }

  lemma {:induction false} ByNonceSame(d: seq<Tx>)
    requires Unique(d)
    ensures ByNonce(d) == d
    decreases |d|
  {
    if d != [] {
      var rest := d[..|d| - 1];
      ByNonceSame(rest);
      PutNew(rest, d[|d| - 1]);
      assert rest + [d[|d| - 1]] == d;
    }
  }

  /** A later transaction takes its nonce over and leaves the others. */
  lemma ByNonceAppend(txs: seq<Tx>, t: Tx, n: nat)
    ensures Lookup(ByNonce(txs + [t]), n) == if n == t.nonce then Some(t) else Lookup(ByNonce(txs), n)
  {
    hide Lookup;
    assert (txs + [t])[..|txs + [t]| - 1] == txs;
    PutAt(ByNonce(txs), t, n);
  }

  lemma {:induction false} TxsAppend(q: seq<Item>, x: Item)
    ensures Txs(q + [x]) == Txs(q) + if x.Coordinator? then [x.tx] else []
  {
    if q == [] {
      assert [] + [x] == [x] && [x][1..] == [];
    } else {
      assert (q + [x])[1..] == q[1..] + [x] && (q + [x])[0] == q[0];
      TxsAppend(q[1..], x);
    }
  }

  lemma {:induction false} TxsWrap(txs: seq<Tx>)
    ensures Txs(Wrap(txs)) == txs
  {
    if txs != [] {
      assert Wrap(txs)[1..] == Wrap(txs[1..]);
      TxsWrap(txs[1..]);
    }
  }

  lemma RemoveAt(d: seq<Tx>, i: nat, m: nat)
    requires Unique(d) && i < |d|
    ensures Unique(d[..i] + d[i + 1..])
    ensures m != d[i].nonce ==> Lookup(d[..i] + d[i + 1..], m) == Lookup(d, m)
  {
    var rest := d[..i] + d[i + 1..];
    var k := Find(d, m);
    if m != d[i].nonce { FindIs(rest, m, if k < i then k else k - 1); }
  }

  /** Mining leaves every nonce past the run queued as it was. */
  lemma {:induction false} WaitingAt(d: seq<Tx>, n: nat, m: nat)
    requires Unique(d)
    ensures Unique(Waiting(d, n))
    ensures m >= n + |Ready(d, n)| ==> Lookup(Waiting(d, n), m) == Lookup(d, m)
    decreases |d|
  {
    hide Unique, Lookup;
    var i := Find(d, n);
    if i < |d| {
      RemoveAt(d, i, m);
      WaitingAt(d[..i] + d[i + 1..], n + 1, m);
    }
  }

  /** The run is what is queued from the next nonce up to the first gap. */
  lemma {:induction false} ReadyAt(d: seq<Tx>, n: nat, m: nat)
    requires Unique(d) && n <= m <= n + |Ready(d, n)|
    ensures Lookup(d, m) == if m < n + |Ready(d, n)| then Some(Ready(d, n)[m - n]) else None
    decreases |d|
  {
    hide Unique;
    var i := Find(d, n);
    if i < |d| && m > n {
      var rest := d[..i] + d[i + 1..];
      RemoveAt(d, i, m);
      ReadyAt(rest, n + 1, m);
      assert Ready(d, n) == [d[i]] + Ready(rest, n + 1);
    }
  }

  lemma {:induction false} ExecuteAllMines(c: Chain, txs: seq<Tx>, block: nat)
    ensures
      var mined := ExecuteAll(c, txs, block).mined;
      && c.mined <= mined && |mined| == |c.mined| + |txs|
      && forall j :: 0 <= j < |txs| ==> mined[|c.mined| + j].tx == txs[j]
    decreases |txs|
  {
    hide Covered, Effect;
    if txs != [] {
      var c1 := Execute(c, txs[0], block);
      ExecuteAllMines(c1, txs[1..], block);
      var mined := ExecuteAll(c, txs, block).mined;
      forall j | 0 <= j < |txs| ensures mined[|c.mined| + j].tx == txs[j] {
        if j == 0 { assert mined[|c.mined|] == c1.mined[|c.mined|]; } else { assert txs[j] == txs[1..][j - 1]; }
      }
    }
  }

  // ---- what is queued for a nonce -----------------------------------------------------------------

  function QueuedAt(c: Chain, n: nat): Option<Tx> { Lookup(ByNonce(Txs(c.queue)), n) }

  lemma BroadcastQueues(c: Chain, nonce: nat, payload: Payload, n: nat)
    requires !c.failNextSend
    ensures
      var (c', h) := Broadcast(c, nonce, payload);
      QueuedAt(c', n) == if n == nonce then Some(Tx(h.value, nonce, payload)) else QueuedAt(c, n)
  {
    hide Lookup, ByNonce, Txs;
    var tx := Tx(c.seqNo + 1, nonce, payload);
    TxsAppend(c.queue, Coordinator(tx));
    ByNonceAppend(Txs(c.queue), tx, n);
  }

  /** A block keeps what is queued past it, and what it mines was queued. */
  lemma MineQueues(c: Chain, first: nat, n: nat)
    requires ChainOk(c, first)
    ensures
      var c' := MineBlock(c);
      && |c.mined| <= |c'.mined| && c.mined <= c'.mined
      && (n >= c.minedNonce + (|c'.mined| - |c.mined|) ==> QueuedAt(c', n) == QueuedAt(c, n))
      && (c.minedNonce <= n < c.minedNonce + (|c'.mined| - |c.mined|) ==>
        QueuedAt(c, n) == Some(c'.mined[|c.mined| + (n - c.minedNonce)].tx))
      && (!c.holdPending ==> QueuedAt(c, c.minedNonce + (|c'.mined| - |c.mined|)).None?)
  {
    hide Lookup, ByNonce, Txs, ExecuteAll, Ready, Waiting, ChainOk, Wrap;
    var txs := Txs(c.queue);
    var d := ByNonce(txs);
    MineBlockOk(c, first);
    if c.holdPending {
      TxsWrap(txs);
    } else {
      var rest := Waiting(d, c.minedNonce);
      ByNonceUnique(txs);
      var k := c.minedNonce + |Ready(d, c.minedNonce)|;
      WaitingAt(d, c.minedNonce, n);
      ReadyAt(d, c.minedNonce, k);
      if c.minedNonce <= n < k { ReadyAt(d, c.minedNonce, n); }
      TxsWrap(rest);
      ByNonceSame(rest);
      MinesReady(c, first);
    }
  }

  lemma MinesReady(c: Chain, first: nat)
    requires ChainOk(c, first) && !c.holdPending
    ensures
      var d := ByNonce(Txs(c.queue));
      var txs := Ready(d, c.minedNonce);
      var c' := MineBlock(c);
      && c'.queue == Wrap(Waiting(d, c.minedNonce))
      && c.mined <= c'.mined && |c'.mined| == |c.mined| + |txs|
      && forall j :: 0 <= j < |txs| ==> c'.mined[|c.mined| + j].tx == txs[j]
  {
    hide ByNonce, Txs, ExecuteAll, Ready, Waiting, ChainOk, Wrap;
    var d := ByNonce(Txs(c.queue));
    var c1 := c.(escrow := ActAllOutside(c.escrow, Outsiders(c.queue)), height := c.height + 1,
      queue := Wrap(Waiting(d, c.minedNonce)));
    BlockReady(c, first, c1, Ready(d, c.minedNonce));
    ExecuteAllOk(c1, Ready(d, c.minedNonce), c.height + 1, first);
    ExecuteAllMines(c1, Ready(d, c.minedNonce), c.height + 1);
  }

  // ---- the invariant ----------------------------------------------------------------------------

  ghost predicate Queued(c: Chain, n: nat, h: Option<Hash>) {
    h.Some? ==> QueuedAt(c, n).Some? && QueuedAt(c, n).value.hash == h.value
  }

  /** Every hash stored for a nonce not yet mined is the one queued there. */
  ghost predicate HashesQueued(cfg: Config, c: Chain, rows: seq<Row>) {
    forall i :: |c.mined| <= i < |rows| ==> Queued(c, cfg.first + i, rows[i].txHash)
  }

  /** A session adds hashes to the table and changes none. */
  ghost predicate AddsHashes(rows: seq<Row>, rs: seq<Row>) {
    |rows| <= |rs| && forall i :: 0 <= i < |rows| && rows[i].txHash.Some? ==> rs[i].txHash == rows[i].txHash
  }

  ghost predicate SessionQueued(cfg: Config, w: World) {
    w.session.Recovering? || w.session.Recorded? ==>
      AddsHashes(w.rows, w.session.rows) && HashesQueued(cfg, w.chain, w.session.rows)
  }

  ghost predicate QueueInv(cfg: Config, w: World) {
    HashesQueued(cfg, w.chain, w.rows) && SessionQueued(cfg, w)
  }

  lemma ChainQueued(cfg: Config, w: World, c: Chain)
    requires QueueInv(cfg, w) && |w.chain.mined| <= |c.mined|
    requires forall n: nat :: n >= cfg.first + |c.mined| ==> QueuedAt(c, n) == QueuedAt(w.chain, n)
    ensures QueueInv(cfg, w.(chain := c))
  {
    hide QueuedAt;
  }

  lemma SameQueued(cfg: Config, w: World, c: Chain)
    requires QueueInv(cfg, w) && c.mined == w.chain.mined && Txs(c.queue) == Txs(w.chain.queue)
    ensures QueueInv(cfg, w.(chain := c))
  {
    hide Lookup, ByNonce, Txs;
    ChainQueued(cfg, w, c);
  }

  lemma MineQueued(cfg: Config, w: World)
    requires Inv(cfg, w) && QueueInv(cfg, w)
    ensures QueueInv(cfg, w.(chain := MineBlock(w.chain)))
  {
    hide QueuedAt, MineBlock, QueueInv;
    var c := MineBlock(w.chain);
    MineQueues(w.chain, cfg.first, 0);
    forall n: nat | n >= cfg.first + |c.mined| ensures QueuedAt(c, n) == QueuedAt(w.chain, n) {
      MineQueues(w.chain, cfg.first, n);
    }
    ChainQueued(cfg, w, c);
  }

  lemma ActQueued(cfg: Config, w: World, act: External)
    requires QueueInv(cfg, w)
    ensures QueueInv(cfg, w.(chain := w.chain.(queue := w.chain.queue + [Outside(act)])))
  {
    TxsAppend(w.chain.queue, Outside(act));
    SameQueued(cfg, w, w.chain.(queue := w.chain.queue + [Outside(act)]));
  }

  lemma SendQueued(cfg: Config, w: World)
    requires Inv(cfg, w) && QueueInv(cfg, w)
    ensures QueueInv(cfg, DoSend(w))
  {
    hide Lookup, ByNonce, Txs;
    var ss := w.session;
    if ss.Recovering? && !ss.sent && ss.next < |ss.rows| {
      var i, r := ss.next, ss.rows[ss.next];
      assert RowOk(cfg, w.chain.sent, w.chain.mined, r, i);
      if InFlight(r) && NeedsSend(r) {
        if w.chain.failNextSend {
          SameQueued(cfg, w, w.chain.(failNextSend := false));
        } else {
          RowSent(cfg, w, r);
        }
      }
    }
  }

  lemma RowSent(cfg: Config, w: World, r: Row)
    requires QueueInv(cfg, w) && w.session.Recovering? && w.session.next < |w.session.rows| && !w.chain.failNextSend
    requires r == w.session.rows[w.session.next] && r.txHash.None? && r.nonce == cfg.first + w.session.next
    ensures
      var ss := w.session;
      var (c, h) := Broadcast(w.chain, r.nonce, r.payload);
      QueueInv(cfg, w.(chain := c,
        session := ss.(rows := ss.rows[ss.next := r.(txHash := h, status := Submitted)], sent := true)))
  {
    hide QueuedAt;
    var (c, h) := Broadcast(w.chain, r.nonce, r.payload);
    forall n: nat
      ensures QueuedAt(c, n) == if n == r.nonce then Some(Tx(h.value, r.nonce, r.payload)) else QueuedAt(w.chain, n)
    {
      BroadcastQueues(w.chain, r.nonce, r.payload, n);
    }
    forall i | |c.mined| <= i < |w.rows| ensures Queued(c, cfg.first + i, w.rows[i].txHash) {
      assert Queued(w.chain, cfg.first + i, w.rows[i].txHash);
    }
    var rs := w.session.rows[w.session.next := r.(txHash := h, status := Submitted)];
    forall i | |c.mined| <= i < |rs| ensures Queued(c, cfg.first + i, rs[i].txHash) {
      assert Queued(w.chain, cfg.first + i, w.session.rows[i].txHash);
    }
  }

  lemma CheckQueued(cfg: Config, w: World)
    requires QueueInv(cfg, w)
    ensures QueueInv(cfg, DoCheck(cfg, w))
  {
    hide QueuedAt, ReceiptAt;
  }

  lemma {:induction false} DebitRowsPending(cfg: Config, orders: seq<DebitOrder>, base: nat)
    ensures forall k :: 0 <= k < |DebitRows(cfg, orders, base)| ==> DebitRows(cfg, orders, base)[k].txHash.None?
    decreases |orders|
  {
    if orders != [] { DebitRowsPending(cfg, orders[1..], base + 1); }
  }

  lemma RecordQueued(cfg: Config, w: World, added: seq<Row>)
    requires QueueInv(cfg, w) && forall k :: 0 <= k < |added| ==> added[k].txHash.None?
    ensures QueueInv(cfg, w.(session := Recorded(w.rows + added)))
  {
    hide QueuedAt;
  }

  lemma StepQueued(cfg: Config, w: World, s: Step)
    requires Inv(cfg, w) && QueueInv(cfg, w)
    ensures QueueInv(cfg, Next(cfg, w, s))
  {
    hide Inv, QueuedAt, MineBlock, DoSend, DoCheck, DebitRows, Reserved, DebitLive, PlanLegs, PlanDebits, AnyKeyTaken,
      AnyInFlight, BaseNonce, PayeesOf, TotalUnits;
    match s
    case Mine => MineQueued(cfg, w);
    case SendRow => SendQueued(cfg, w);
    case CheckRow => CheckQueued(cfg, w);
    case Act(act) => ActQueued(cfg, w, act);
    case RecordDebits =>
      if w.session.DebitPlanned? {
        var base := BaseNonce(w.chain, w.rows);
        DebitRowsPending(cfg, w.session.orders, base);
        RecordQueued(cfg, w, DebitRows(cfg, w.session.orders, base));
      }
    case RecordBatch =>
      if w.session.Numbered? { RecordQueued(cfg, w, BatchRows(cfg, w.session.legs, w.session.base, w.chain.pool)); }
    case Fund(a) => SameQueued(cfg, w, Next(cfg, w, s).chain);
    case FailNextSend(_) => SameQueued(cfg, w, Next(cfg, w, s).chain);
    case HoldPending(_) => SameQueued(cfg, w, Next(cfg, w, s).chain);
    case ForceRevert(_, _) => SameQueued(cfg, w, Next(cfg, w, s).chain);
    case _ =>
  }

  lemma {:induction false} RunQueued(cfg: Config, w: World, steps: seq<Step>)
    requires Inv(cfg, w) && QueueInv(cfg, w) && Distinct(cfg.devWallets)
    ensures Inv(cfg, Run(cfg, w, steps)) && QueueInv(cfg, Run(cfg, w, steps))
    decreases |steps|
  {
    hide Inv, QueueInv, Next;
    if steps != [] {
      StepInv(cfg, w, steps[0]);
      StepQueued(cfg, w, steps[0]);
      RunQueued(cfg, Next(cfg, w, steps[0]), steps[1..]);
    }
  }

  // ---- every unmined row can be resolved ---------------------------------------------------------

  ghost predicate KeepsDone(rows: seq<Row>, rs: seq<Row>) {
    |rows| == |rs| && forall i :: 0 <= i < |rows| && !InFlight(rows[i]) ==> rs[i] == rows[i]
  }

  /** While sends work, a sweep leaves no unmined row without a hash. */
  lemma {:induction false} SweepSends(cfg: Config, w: World, n: nat)
    requires Inv(cfg, w) && Distinct(cfg.devWallets) && !w.chain.failNextSend
    requires w.session.Recovering? && !w.session.sent && w.session.next + n <= |w.session.rows|
    ensures
      var w' := Run(cfg, w, Sweep(n));
      && w'.session.Recovering? && |w'.session.rows| == |w.session.rows|
      && w'.chain.mined == w.chain.mined && w'.chain.holdPending == w.chain.holdPending
      && AddsHashes(w.session.rows, w'.session.rows) && KeepsDone(w.session.rows, w'.session.rows)
      && (forall k :: w.session.next <= k < w.session.next + n && |w.chain.mined| <= k ==>
        w'.session.rows[k].txHash.Some?)
    decreases n
  {
    hide Inv, DoSend, DoCheck;
    if n > 0 {
      var w1 := DoCheck(cfg, DoSend(w));
      RunTwo(cfg, w, SendRow, CheckRow);
      RunAppend(cfg, w, [SendRow, CheckRow], Sweep(n - 1));
      StepInv(cfg, w, SendRow);
      StepInv(cfg, DoSend(w), CheckRow);
      SweepOne(cfg, w);
      SendsNext(cfg, w);
      SweepSends(cfg, w1, n - 1);
    }
  }

  lemma SendsNext(cfg: Config, w: World)
    requires Inv(cfg, w) && !w.chain.failNextSend
    requires w.session.Recovering? && !w.session.sent && w.session.next < |w.session.rows|
    ensures
      var w' := DoCheck(cfg, DoSend(w));
      && w'.session.Recovering? && |w'.session.rows| == |w.session.rows|
      && !w'.chain.failNextSend && w'.chain.holdPending == w.chain.holdPending
      && AddsHashes(w.session.rows, w'.session.rows) && KeepsDone(w.session.rows, w'.session.rows)
      && (|w.chain.mined| <= w.session.next ==> w'.session.rows[w.session.next].txHash.Some?)
  {
    assert RowOk(cfg, w.chain.sent, w.chain.mined, w.session.rows[w.session.next], w.session.next);
  }

  /** Everything is broadcast: sends work, nothing is held back, and one pass runs over the whole table. */
  function SendAll(n: nat): seq<Step> {
    [FailNextSend(false), HoldPending(false)] + RecoverSteps(n)
  }

  lemma RunSendAll(cfg: Config, w: World, n: nat)
    ensures
      var c := w.chain.(failNextSend := false, holdPending := false);
      Run(cfg, w, SendAll(n)) == DoCommit(Run(cfg, DoBeginRecover(w.(chain := c)), Sweep(n)))
  {
    hide DoBeginRecover, DoCommit, RecoverSteps;
    RunAppend(cfg, w, [FailNextSend(false), HoldPending(false)], RecoverSteps(n));
    RunTwo(cfg, w, FailNextSend(false), HoldPending(false));
    RunRecover(cfg, w.(chain := w.chain.(failNextSend := false, holdPending := false)), n);
  }

  /** From an idle state: the table is broadcast in full, and the next block mines it under the hashes stored. */
  lemma AllSent(cfg: Config, w: World)
    requires Inv(cfg, w) && QueueInv(cfg, w) && Distinct(cfg.devWallets) && w.session.Closed?
    ensures
      var w1 := Run(cfg, w, SendAll(|w.rows|));
      && Inv(cfg, w1) && QueueInv(cfg, w1) && w1.session.Closed? && !w1.chain.holdPending
      && |w1.rows| == |w.rows| && w1.chain.mined == w.chain.mined
      && AddsHashes(w.rows, w1.rows) && KeepsDone(w.rows, w1.rows)
      && forall k :: |w.chain.mined| <= k < |w.rows| ==> w1.rows[k].txHash.Some?
  {
    hide Inv, QueueInv, Sweep;
    var n := |w.rows|;
    var w0 := w.(chain := w.chain.(failNextSend := false, holdPending := false));
    RunSendAll(cfg, w, n);
    RunQueued(cfg, w, SendAll(n));
    StepInv(cfg, w, FailNextSend(false));
    StepInv(cfg, Next(cfg, w, FailNextSend(false)), HoldPending(false));
    BeginRecoverInv(cfg, w0);
    SweepSends(cfg, DoBeginRecover(w0), n);
  }

  lemma RowQueued(cfg: Config, w: World, k: nat)
    requires QueueInv(cfg, w) && |w.chain.mined| <= k < |w.rows| && w.rows[k].txHash.Some?
    ensures
      var t := QueuedAt(w.chain, cfg.first + k);
      t.Some? && w.rows[k].txHash == Some(t.value.hash)
  {
    hide QueuedAt;
    assert Queued(w.chain, cfg.first + k, w.rows[k].txHash);
  }

  lemma AllMinedNext(cfg: Config, w: World)
    requires Inv(cfg, w) && QueueInv(cfg, w) && !w.chain.holdPending
    requires forall k :: |w.chain.mined| <= k < |w.rows| ==> w.rows[k].txHash.Some?
    ensures
      var c := MineBlock(w.chain);
      && |w.rows| <= |c.mined|
      && forall k :: |w.chain.mined| <= k < |w.rows| ==> w.rows[k].txHash == Some(c.mined[k].tx.hash)
  {
    hide QueuedAt, MineBlock, RowsOk, TableOk, QueueInv;
    var c := MineBlock(w.chain);
    MineQueues(w.chain, cfg.first, 0);
    if |c.mined| < |w.rows| {
      RowQueued(cfg, w, |c.mined|);
      assert false;
    }
    forall k | |w.chain.mined| <= k < |w.rows| ensures w.rows[k].txHash == Some(c.mined[k].tx.hash) {
      RowQueued(cfg, w, k);
      MineQueues(w.chain, cfg.first, cfg.first + k);
    }
  }

  /** An unmined row: broadcast everything, mine a block, bury it and look. */
  lemma UnminedReachable(cfg: Config, w: World, i: nat) returns (steps: seq<Step>)
    requires Inv(cfg, w) && QueueInv(cfg, w) && Distinct(cfg.devWallets) && w.session.Closed?
    requires |w.chain.mined| <= i < |w.rows|
    ensures i < |Run(cfg, w, steps).rows| && !InFlight(Run(cfg, w, steps).rows[i])
  {
    hide Inv, QueueInv, MineBlock, SendAll;
    AllSent(cfg, w);
    var w1 := Run(cfg, w, SendAll(|w.rows|));
    AllMinedNext(cfg, w1);
    StepInv(cfg, w1, Mine);
    var w2 := Next(cfg, w1, Mine);
    var all := SendAll(|w.rows|) + [Mine];
    RunAppend(cfg, w, SendAll(|w.rows|), [Mine]);
    assert [Mine][1..] == [] && Run(cfg, w1, [Mine]) == Run(cfg, w2, []);
    if InFlight(w2.rows[i]) {
      var rest := RecoveryReachable(cfg, w2, i);
      RunAppend(cfg, w, all, rest);
      steps := all + rest;
    } else {
      steps := all;
    }
  }

  /**
   In every reachable state with no session open, a row in flight can still be resolved if and
   only if its nonce was not consumed under another hash than the one it stored.
   */
  lemma ResolvesIff(cfg: Config, w0: World, before: seq<Step>, i: nat)
    requires Initial(cfg, w0) && Distinct(cfg.devWallets)
    requires
      var w := Run(cfg, w0, before);
      w.session.Closed? && i < |w.rows| && InFlight(w.rows[i])
    ensures
      var w := Run(cfg, w0, before);
      (exists steps :: i < |Run(cfg, w, steps).rows| && !InFlight(Run(cfg, w, steps).rows[i]))
      <==> !Stuck(w, i)
  {
    hide Inv, Next;
    InitialInv(cfg, w0);
    RunQueued(cfg, w0, before);
    var w := Run(cfg, w0, before);
    if i < |w.chain.mined| {
      ResolvableIff(cfg, w0, before, i);
    } else {
      var steps := UnminedReachable(cfg, w, i);
    }
  }

  // ---- and the whole table --------------------------------------------------------------------------

  ghost predicate Ripe(cfg: Config, mined: seq<Mined>, latest: nat, r: Row, i: nat) {
    i < |mined| && r.txHash == Some(mined[i].tx.hash) && cfg.confirmations + mined[i].block <= latest + 1
  }

  ghost predicate RipeFrom(cfg: Config, w: World, rs: seq<Row>, latest: nat, from: nat) {
    forall k :: from <= k < |rs| && InFlight(rs[k]) ==> Ripe(cfg, w.chain.mined, latest, rs[k], k)
  }

  lemma ResolvesNext(cfg: Config, w: World)
    requires Inv(cfg, w) && w.session.Recovering? && !w.session.sent && w.session.next < |w.session.rows|
    requires RipeFrom(cfg, w, w.session.rows, w.session.latest, w.session.next)
    ensures !InFlight(DoCheck(cfg, DoSend(w)).session.rows[w.session.next])
  {
    hide Inv, DoSend, DoCheck;
    var i := w.session.next;
    SweepOne(cfg, w);
    if InFlight(w.session.rows[i]) { ResolveBuried(cfg, w, i); } else { SkipsDone(cfg, w); }
  }

  lemma SkipsDone(cfg: Config, w: World)
    requires w.session.Recovering? && !w.session.sent && w.session.next < |w.session.rows|
    requires !InFlight(w.session.rows[w.session.next])
    ensures DoCheck(cfg, DoSend(w)).session.rows == w.session.rows
  {}

  /** A sweep over rows that were all mined as stored, deep enough, leaves none in flight. */
  lemma {:induction false} SweepResolves(cfg: Config, w: World, n: nat)
    requires Inv(cfg, w) && Distinct(cfg.devWallets)
    requires w.session.Recovering? && !w.session.sent && w.session.next + n == |w.session.rows|
    requires RipeFrom(cfg, w, w.session.rows, w.session.latest, w.session.next)
    ensures
      var w' := Run(cfg, w, Sweep(n));
      && w'.session.Recovering? && |w'.session.rows| == |w.session.rows|
      && (forall k :: 0 <= k < w.session.next ==> w'.session.rows[k] == w.session.rows[k])
      && (forall k :: w.session.next <= k < |w.session.rows| ==> !InFlight(w'.session.rows[k]))
    decreases n
  {
    hide Inv, DoSend, DoCheck, InFlight;
    if n > 0 {
      var w1 := DoCheck(cfg, DoSend(w));
      RunTwo(cfg, w, SendRow, CheckRow);
      RunAppend(cfg, w, [SendRow, CheckRow], Sweep(n - 1));
      StepInv(cfg, w, SendRow);
      StepInv(cfg, DoSend(w), CheckRow);
      SweepOne(cfg, w);
      ResolvesNext(cfg, w);
      SweepResolves(cfg, w1, n - 1);
    }
  }

  lemma PassResolves(cfg: Config, w: World)
    requires Inv(cfg, w) && Distinct(cfg.devWallets) && w.session.Closed?
    requires RipeFrom(cfg, w, w.rows, w.chain.height, 0)
    ensures
      var w' := Run(cfg, w, RecoverSteps(|w.rows|));
      w'.session.Closed? && !AnyInFlight(w'.rows)
  {
    hide Inv, Ripe, Sweep, RecoverSteps;
    RunRecover(cfg, w, |w.rows|);
    BeginRecoverInv(cfg, w);
    SweepResolves(cfg, DoBeginRecover(w), |w.rows|);
  }

  function Deepest(mined: seq<Mined>): nat {
    if mined == [] then 0 else Max(Deepest(mined[..|mined| - 1]), mined[|mined| - 1].block)
  }

  lemma {:induction false} DeepestIs(mined: seq<Mined>)
    ensures forall k :: 0 <= k < |mined| ==> mined[k].block <= Deepest(mined)
    decreases |mined|
  {
    if mined != [] { DeepestIs(mined[..|mined| - 1]); }
  }

  /** Broadcast everything, mine it, bury it, and look at every row. */
  function ClearSteps(n: nat, blocks: nat): seq<Step> {
    SendAll(n) + [Mine] + Repeat(Mine, blocks) + RecoverSteps(n)
  }

  lemma RunClear(cfg: Config, w: World, n: nat, blocks: nat)
    ensures
      var w1 := Next(cfg, Run(cfg, w, SendAll(n)), Mine);
      Run(cfg, w, ClearSteps(n, blocks)) == Run(cfg, Run(cfg, w1, Repeat(Mine, blocks)), RecoverSteps(n))
  {
    hide Next, SendAll, RecoverSteps, Repeat;
    RunAppend(cfg, w, SendAll(n) + [Mine] + Repeat(Mine, blocks), RecoverSteps(n));
    RunAppend(cfg, w, SendAll(n) + [Mine], Repeat(Mine, blocks));
    RunAppend(cfg, w, SendAll(n), [Mine]);
    var w1 := Run(cfg, w, SendAll(n));
    assert [Mine][1..] == [] && Run(cfg, w1, [Mine]) == Run(cfg, Next(cfg, w1, Mine), []);
  }

  lemma MinedAsStored(cfg: Config, w: World)
    requires Inv(cfg, w) && QueueInv(cfg, w) && Distinct(cfg.devWallets) && w.session.Closed?
    requires forall i: nat :: !Stuck(w, i)
    ensures
      var w1 := Next(cfg, Run(cfg, w, SendAll(|w.rows|)), Mine);
      && Inv(cfg, w1) && w1.session.Closed? && |w1.rows| == |w.rows|
      && forall k :: 0 <= k < |w.rows| && InFlight(w1.rows[k]) ==>
        k < |w1.chain.mined| && w1.rows[k].txHash == Some(w1.chain.mined[k].tx.hash)
  {
    hide Inv, QueueInv, MineBlock, SendAll;
    AllSent(cfg, w);
    var w1 := Run(cfg, w, SendAll(|w.rows|));
    AllMinedNext(cfg, w1);
    StepInv(cfg, w1, Mine);
    MineGrows(cfg, w1);
    var w2 := Next(cfg, w1, Mine);
    forall k | 0 <= k < |w.rows| && InFlight(w2.rows[k])
      ensures k < |w2.chain.mined| && w2.rows[k].txHash == Some(w2.chain.mined[k].tx.hash)
    {
      if k < |w.chain.mined| {
        assert !Stuck(w, k) && InFlight(w.rows[k]);
      }
    }
  }

  lemma Clears(cfg: Config, w: World) returns (steps: seq<Step>)
    requires Inv(cfg, w) && QueueInv(cfg, w) && Distinct(cfg.devWallets) && w.session.Closed?
    requires forall i: nat :: !Stuck(w, i)
    ensures Run(cfg, w, steps).session.Closed? && !AnyInFlight(Run(cfg, w, steps).rows)
  {
    hide Inv, QueueInv, Next, SendAll, RecoverSteps, Repeat, Stuck, AnyInFlight;
    var n := |w.rows|;
    MinedAsStored(cfg, w);
    var w1 := Next(cfg, Run(cfg, w, SendAll(n)), Mine);
    var blocks := cfg.confirmations + Deepest(w1.chain.mined);
    DeepestIs(w1.chain.mined);
    MineOn(cfg, w1, blocks);
    var w2 := Run(cfg, w1, Repeat(Mine, blocks));
    PassResolves(cfg, w2);
    RunClear(cfg, w, n, blocks);
    steps := ClearSteps(n, blocks);
  }

  /**
   In every reachable state with no session open, the engine can still reach a table with
   nothing in flight, and so record again, if and only if no row is stuck.
   */
  lemma ClearsIff(cfg: Config, w0: World, before: seq<Step>)
    requires Initial(cfg, w0) && Distinct(cfg.devWallets) && Run(cfg, w0, before).session.Closed?
    ensures
      var w := Run(cfg, w0, before);
      (exists steps :: Run(cfg, w, steps).session.Closed? && !AnyInFlight(Run(cfg, w, steps).rows))
      <==> forall i: nat :: !Stuck(w, i)
  {
    hide Inv, QueueInv, Next;
    InitialInv(cfg, w0);
    assert QueueInv(cfg, w0) by { StartsQueued(cfg, w0); }
    RunQueued(cfg, w0, before);
    var w := Run(cfg, w0, before);
    if i: nat :| Stuck(w, i) {
      forall steps ensures AnyInFlight(Run(cfg, w, steps).rows) {
        StuckForever(cfg, w, i, steps);
      }
    } else {
      var steps := Clears(cfg, w);
    }
  }

  lemma StartsQueued(cfg: Config, w: World)
    requires Initial(cfg, w)
    ensures QueueInv(cfg, w)
  {}
}
