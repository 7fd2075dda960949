/**
 The coordinator's view of the chain: transactions wait in a queue, mine strictly in
 nonce order, and succeed or revert. `mined` is the chain's own history of coordinator
 transactions (receipts are read off it), `sent` the history of everything ever broadcast.
 */
module ChainModel {
  import opened Common

  type Wallet = nat
  type Hash = nat

  datatype Kind = KSettle | KDeposit | KDebit

  datatype Payee = Payee(wallet: Wallet, amount: nat)

  datatype Payload =
    | SettleBatch(payees: seq<Payee>)
    | DepositSettlement(amount: nat)
    | DebitEscrow(developer: Wallet, amount: nat)

  datatype Tx = Tx(hash: Hash, nonce: nat, payload: Payload)

  /** Actions of accounts other than the coordinator. */
  datatype External =
    | Deposit(wallet: Wallet, amount: nat)
    | Withdraw(wallet: Wallet, amount: nat)
    | Slash(wallet: Wallet, amount: nat)

  datatype Item = Outside(act: External) | Coordinator(tx: Tx)

  /** A mined coordinator transaction; `forced` marks a revert injected from outside. */
  datatype Mined = Mined(tx: Tx, ok: bool, forced: bool, block: nat)

  datatype Chain = Chain(
    queue: seq<Item>,
    sent: map<Hash, Tx>,
    mined: seq<Mined>,
    height: nat,
    minedNonce: nat,
    pool: nat,
    funded: nat,
    earnings: map<nat, nat>,
    escrow: map<nat, nat>,
    seqNo: nat,
    failNextSend: bool,
    holdPending: bool,
    revertKinds: set<Kind>)

  function KindOf(p: Payload): Kind {
    match p
    case SettleBatch(_) => KSettle
    case DepositSettlement(_) => KDeposit
    case DebitEscrow(_, _) => KDebit
  }

  function Total(payees: seq<Payee>): nat {
    if payees == [] then 0 else payees[0].amount + Total(payees[1..])
  }

  /** What a payee list pays one wallet. */
  function Pay(payees: seq<Payee>, w: Wallet): nat {
    if payees == [] then 0
    else (if payees[0].wallet == w then payees[0].amount else 0) + Pay(payees[1..], w)
  }

  // ---- sending ---------------------------------------------------------------------

  /** A broadcast either fails (once, when told to) or queues the transaction under a fresh hash. */
  function Broadcast(c: Chain, nonce: nat, payload: Payload): (Chain, Option<Hash>) {
    if c.failNextSend then
      (c.(failNextSend := false), None)
    else
      var h := c.seqNo + 1;
      var tx := Tx(h, nonce, payload);
      (c.(seqNo := h, queue := c.queue + [Coordinator(tx)], sent := c.sent[h := tx]), Some(h))
  }

  // ---- mining ----------------------------------------------------------------------

  function Outsiders(q: seq<Item>): seq<External> {
    if q == [] then []
    else (if q[0].Outside? then [q[0].act] else []) + Outsiders(q[1..])
  }

  /** The coordinator transactions of a queue, in queue order. */
  function Txs(q: seq<Item>): seq<Tx> {
    if q == [] then []
    else (if q[0].Coordinator? then [q[0].tx] else []) + Txs(q[1..])
  }

  function Wrap(txs: seq<Tx>): seq<Item> {
    if txs == [] then [] else [Coordinator(txs[0])] + Wrap(txs[1..])
  }

  /** Write into a dictionary keyed by nonce: a later transaction replaces an earlier one. */
  function Put(d: seq<Tx>, t: Tx): seq<Tx> {
    if d == [] then [t]
    else if d[0].nonce == t.nonce then [t] + d[1..]
    else [d[0]] + Put(d[1..], t)
  }

  function ByNonce(txs: seq<Tx>): seq<Tx> {
    if txs == [] then [] else Put(ByNonce(txs[..|txs| - 1]), txs[|txs| - 1])
  }

  /** Position of the entry with nonce `n`, or the length when there is none. */
  function Find(d: seq<Tx>, n: nat): (i: nat)
    ensures i <= |d|
    ensures i < |d| ==> d[i].nonce == n
    ensures forall k :: 0 <= k < i ==> d[k].nonce != n
  {
    if d == [] then 0 else if d[0].nonce == n then 0 else 1 + Find(d[1..], n)
  }

  /** The gap-free run of transactions from nonce `n`. */
  function Ready(d: seq<Tx>, n: nat): seq<Tx>
    decreases |d|
  {
    var i := Find(d, n);
    if i == |d| then [] else [d[i]] + Ready(d[..i] + d[i + 1..], n + 1)
  }

  /** What stays queued once `Ready(d, n)` has been taken. */
  function Waiting(d: seq<Tx>, n: nat): seq<Tx>
    decreases |d|
  {
    var i := Find(d, n);
    if i == |d| then d else Waiting(d[..i] + d[i + 1..], n + 1)
  }

  function Credit(m: map<nat, nat>, payees: seq<Payee>): map<nat, nat>
    decreases |payees|
  {
    if payees == [] then m
    else Credit(m[payees[0].wallet := Get(m, payees[0].wallet) + payees[0].amount], payees[1..])
  }

  function ActOutside(escrow: map<nat, nat>, act: External): map<nat, nat> {
    match act
    case Deposit(w, a) => escrow[w := Get(escrow, w) + a]
    case Withdraw(w, a) => if Get(escrow, w) < a then escrow else escrow[w := Get(escrow, w) - a]
    case Slash(_, _) => escrow
  }

  function ActAllOutside(escrow: map<nat, nat>, acts: seq<External>): map<nat, nat>
    decreases |acts|
  {
    if acts == [] then escrow else ActAllOutside(ActOutside(escrow, acts[0]), acts[1..])
  }

  /** Whether the contract call itself goes through: the pool or the escrow must cover it. */
  predicate Covered(c: Chain, p: Payload) {
    match p
    case SettleBatch(payees) => Total(payees) <= c.pool
    case DepositSettlement(_) => true
    case DebitEscrow(w, a) => a <= Get(c.escrow, w)
  }

  function Effect(c: Chain, p: Payload): Chain
    requires Covered(c, p)
  {
    match p
    case SettleBatch(payees) =>
      c.(pool := c.pool - Total(payees), earnings := Credit(c.earnings, payees))
    case DepositSettlement(a) => c.(pool := c.pool + a)
    case DebitEscrow(w, a) => c.(escrow := c.escrow[w := Get(c.escrow, w) - a])
  }

  function Execute(c: Chain, t: Tx, block: nat): Chain {
    var forced := KindOf(t.payload) in c.revertKinds;
    var ok := !forced && Covered(c, t.payload);
    var c' := if ok then Effect(c, t.payload) else c;
    c'.(mined := c.mined + [Mined(t, ok, forced, block)], minedNonce := c.minedNonce + 1)
  }

  function ExecuteAll(c: Chain, txs: seq<Tx>, block: nat): Chain
    decreases |txs|
  {
    if txs == [] then c else ExecuteAll(Execute(c, txs[0], block), txs[1..], block)
  }

  /** One block: outsiders first, then the gap-free nonce run, unless coordinator txs are held. */
  function MineBlock(c: Chain): Chain {
    var number := c.height + 1;
    var txs := Txs(c.queue);
    var c1 := c.(escrow := ActAllOutside(c.escrow, Outsiders(c.queue)), height := number);
    if c.holdPending then
      c1.(queue := Wrap(txs))
    else
      var d := ByNonce(txs);
      ExecuteAll(c1.(queue := Wrap(Waiting(d, c.minedNonce))), Ready(d, c.minedNonce), number)
  }

  function MineBlocks(c: Chain, n: nat): Chain
    decreases n
  {
    if n == 0 then c else MineBlocks(MineBlock(c), n - 1)
  }

  /** The receipt of a transaction hash: where in the history it was mined, if it was. */
  function ReceiptAt(mined: seq<Mined>, h: Hash): (r: Option<nat>)
    ensures r.Some? ==> r.value < |mined| && mined[r.value].tx.hash == h
    ensures r.None? ==> forall k :: 0 <= k < |mined| ==> mined[k].tx.hash != h
  {
    if mined == [] then None
    else if mined[|mined| - 1].tx.hash == h then Some(|mined| - 1)
    else ReceiptAt(mined[..|mined| - 1], h)
  }

  // ---- sums over the history ----------------------------------------------------------

  function Paid(mined: seq<Mined>, w: Wallet): nat {
    if mined == [] then 0
    else
      var m := mined[|mined| - 1];
      Paid(mined[..|mined| - 1], w) + if m.ok && m.tx.payload.SettleBatch? then Pay(m.tx.payload.payees, w) else 0
  }

  function Debited(mined: seq<Mined>, w: Wallet): nat {
    if mined == [] then 0
    else
      var m := mined[|mined| - 1];
      Debited(mined[..|mined| - 1], w) + if m.ok then DebitOf(m.tx.payload, w) else 0
  }

  function DebitOf(p: Payload, w: Wallet): nat {
    if p.DebitEscrow? && p.developer == w then p.amount else 0
  }

  /** Net pool movement of the coordinator's own successful transactions. */
  function PoolFlow(mined: seq<Mined>): int {
    if mined == [] then 0
    else
      var m := mined[|mined| - 1];
      PoolFlow(mined[..|mined| - 1]) + if m.ok then PoolDelta(m.tx.payload) else 0
  }

  function PoolDelta(p: Payload): int {
    match p
    case SettleBatch(payees) => -(Total(payees) as int)
    case DepositSettlement(a) => a
    case DebitEscrow(_, _) => 0
  }

  // ---- what mining keeps -----------------------------------------------------------------

  ghost predicate WasSent(sent: map<Hash, Tx>, t: Tx) {
    t.hash in sent && sent[t.hash] == t
  }

  /** The history is nonce-ordered from `first`, and everything in it was sent. */
  ghost predicate HistoryOk(mined: seq<Mined>, sent: map<Hash, Tx>, first: nat) {
    forall i :: 0 <= i < |mined| ==> mined[i].tx.nonce == first + i && WasSent(sent, mined[i].tx)
  }

  ghost predicate QueueOk(queue: seq<Item>, sent: map<Hash, Tx>) {
    forall k :: 0 <= k < |queue| ==> queue[k].Coordinator? ==> WasSent(sent, queue[k].tx)
  }

  ghost predicate SentOk(sent: map<Hash, Tx>, seqNo: nat) {
    forall h :: h in sent ==> h <= seqNo && sent[h].hash == h
  }

  ghost predicate EarningsOk(earnings: map<nat, nat>, mined: seq<Mined>) {
    forall w :: Get(earnings, w) == Paid(mined, w)
  }

  ghost predicate ChainOk(c: Chain, first: nat) {
    && c.minedNonce == first + |c.mined|
    && HistoryOk(c.mined, c.sent, first)
    && QueueOk(c.queue, c.sent)
    && SentOk(c.sent, c.seqNo)
    && EarningsOk(c.earnings, c.mined)
    && c.pool == c.funded + PoolFlow(c.mined)
  }

  lemma {:induction false} CreditPays(m: map<nat, nat>, payees: seq<Payee>, w: Wallet)
    ensures Get(Credit(m, payees), w) == Get(m, w) + Pay(payees, w)
    decreases |payees|
  {
    if payees != [] {
      CreditPays(m[payees[0].wallet := Get(m, payees[0].wallet) + payees[0].amount], payees[1..], w);
    }
  }

  lemma {:induction false} TxsFrom(q: seq<Item>, t: Tx)
    requires t in Txs(q)
    ensures Coordinator(t) in q
  {
    if q[0] != Coordinator(t) { TxsFrom(q[1..], t); }
  }

  lemma {:induction false} WrapIs(txs: seq<Tx>)
    ensures |Wrap(txs)| == |txs|
    ensures forall i :: 0 <= i < |txs| ==> Wrap(txs)[i] == Coordinator(txs[i])
  {
    if txs != [] { WrapIs(txs[1..]); }
  }

  lemma {:induction false} PutFrom(d: seq<Tx>, t: Tx, x: Tx)
    requires x in Put(d, t)
    ensures x == t || x in d
  {
    if d != [] && d[0].nonce != t.nonce && x != d[0] { PutFrom(d[1..], t, x); }
  }

  lemma {:induction false} ByNonceFrom(txs: seq<Tx>, x: Tx)
    requires x in ByNonce(txs)
    ensures x in txs
    decreases |txs|
  {
    var last := txs[|txs| - 1];
    PutFrom(ByNonce(txs[..|txs| - 1]), last, x);
    if x != last { ByNonceFrom(txs[..|txs| - 1], x); }
  }

  lemma {:induction false} ReadyRun(d: seq<Tx>, n: nat)
    ensures forall j :: 0 <= j < |Ready(d, n)| ==> Ready(d, n)[j] in d && Ready(d, n)[j].nonce == n + j
    ensures forall x :: x in Waiting(d, n) ==> x in d
    decreases |d|
  {
    var i := Find(d, n);
    if i < |d| { ReadyRun(d[..i] + d[i + 1..], n + 1); }
  }

  lemma BroadcastOk(c: Chain, nonce: nat, payload: Payload, first: nat)
    requires ChainOk(c, first) && !c.failNextSend
    ensures ChainOk(Broadcast(c, nonce, payload).0, first)
    ensures c.seqNo + 1 !in c.sent
  {
    var c' := Broadcast(c, nonce, payload).0;
    assert HistoryOk(c'.mined, c'.sent, first) by {
      forall i | 0 <= i < |c.mined| ensures WasSent(c'.sent, c.mined[i].tx) {
        assert WasSent(c.sent, c.mined[i].tx);
      }
    }
    assert QueueOk(c'.queue, c'.sent) by {
      forall k | 0 <= k < |c.queue| && c.queue[k].Coordinator? ensures WasSent(c'.sent, c.queue[k].tx) {
        assert WasSent(c.sent, c.queue[k].tx);
      }
    }
  }

  lemma PaidAppend(mined: seq<Mined>, m: Mined, w: Wallet)
    ensures Paid(mined + [m], w) ==
      Paid(mined, w) + if m.ok && m.tx.payload.SettleBatch? then Pay(m.tx.payload.payees, w) else 0
    ensures Debited(mined + [m], w) == Debited(mined, w) + if m.ok then DebitOf(m.tx.payload, w) else 0
    ensures PoolFlow(mined + [m]) == PoolFlow(mined) + if m.ok then PoolDelta(m.tx.payload) else 0
  {
    assert (mined + [m])[..|mined + [m]| - 1] == mined;
  }

  lemma ExecuteEarnings(c: Chain, t: Tx, block: nat)
    requires EarningsOk(c.earnings, c.mined)
    ensures EarningsOk(Execute(c, t, block).earnings, Execute(c, t, block).mined)
  {
    var c' := Execute(c, t, block);
    var m := c'.mined[|c.mined|];
    forall w ensures Get(c'.earnings, w) == Paid(c'.mined, w) {
      PaidAppend(c.mined, m, w);
      if m.ok && t.payload.SettleBatch? { CreditPays(c.earnings, t.payload.payees, w); }
    }
  }

  lemma ExecuteOk(c: Chain, t: Tx, block: nat, first: nat)
    requires ChainOk(c, first) && t.nonce == c.minedNonce && WasSent(c.sent, t)
    ensures ChainOk(Execute(c, t, block), first)
  {
    ExecuteEarnings(c, t, block);
    PaidAppend(c.mined, Execute(c, t, block).mined[|c.mined|], 0);
  }

  lemma ExecuteFrame(c: Chain, t: Tx, block: nat)
    ensures
      var c' := Execute(c, t, block);
      && c'.sent == c.sent && c'.funded == c.funded && c'.queue == c.queue && c'.height == c.height
      && c'.minedNonce == c.minedNonce + 1 && c.mined <= c'.mined
  {
    hide Credit, Total, Get;
  }

  /** Executing a run of consecutive transactions only appends to the history. */
  lemma {:induction false} ExecuteAllOk(c: Chain, txs: seq<Tx>, block: nat, first: nat)
    requires ChainOk(c, first)
    requires forall j :: 0 <= j < |txs| ==> txs[j].nonce == c.minedNonce + j && WasSent(c.sent, txs[j])
    ensures ChainOk(ExecuteAll(c, txs, block), first)
    ensures ExecuteAll(c, txs, block).sent == c.sent && ExecuteAll(c, txs, block).funded == c.funded
    ensures ExecuteAll(c, txs, block).queue == c.queue
    ensures c.mined <= ExecuteAll(c, txs, block).mined
    decreases |txs|
  {
    hide ChainOk, Execute;
    if txs != [] {
      ExecuteOk(c, txs[0], block, first);
      ExecuteFrame(c, txs[0], block);
      ExecuteAllOk(Execute(c, txs[0], block), txs[1..], block, first);
    }
  }

  lemma DictSent(queue: seq<Item>, sent: map<Hash, Tx>)
    requires QueueOk(queue, sent)
    ensures forall t :: t in Txs(queue) ==> WasSent(sent, t)
    ensures forall t :: t in ByNonce(Txs(queue)) ==> WasSent(sent, t)
  {
    var txs := Txs(queue);
    forall t | t in txs ensures WasSent(sent, t) { TxsFrom(queue, t); }
    forall t | t in ByNonce(txs) ensures WasSent(sent, t) { ByNonceFrom(txs, t); }
  }

  lemma WrapSent(txs: seq<Tx>, sent: map<Hash, Tx>)
    requires forall t :: t in txs ==> WasSent(sent, t)
    ensures QueueOk(Wrap(txs), sent)
  {
    WrapIs(txs);
  }

  /** What a block is made of: a chain ready to execute, and the run it executes. */
  lemma BlockReady(c: Chain, first: nat, c1: Chain, txs: seq<Tx>)
    requires ChainOk(c, first)
    requires c1 == c.(escrow := c1.escrow, height := c1.height,
      queue := Wrap(Waiting(ByNonce(Txs(c.queue)), c.minedNonce)))
    requires txs == Ready(ByNonce(Txs(c.queue)), c.minedNonce)
    ensures ChainOk(c1, first)
    ensures forall j :: 0 <= j < |txs| ==> txs[j].nonce == c1.minedNonce + j && WasSent(c1.sent, txs[j])
  {
    DictSent(c.queue, c.sent);
    var d := ByNonce(Txs(c.queue));
    ReadyRun(d, c.minedNonce);
    WrapSent(Waiting(d, c.minedNonce), c.sent);
  }

  lemma HeldOk(c: Chain, first: nat)
    requires ChainOk(c, first) && c.holdPending
    ensures ChainOk(MineBlock(c), first)
  {
    DictSent(c.queue, c.sent);
    WrapSent(Txs(c.queue), c.sent);
  }

  lemma MineBlockOk(c: Chain, first: nat)
    requires ChainOk(c, first)
    ensures ChainOk(MineBlock(c), first)
    ensures MineBlock(c).sent == c.sent && MineBlock(c).funded == c.funded && c.mined <= MineBlock(c).mined
  {
    hide ChainOk, ExecuteAll;
    if c.holdPending {
      HeldOk(c, first);
    } else {
      var d := ByNonce(Txs(c.queue));
      var c1 := c.(escrow := ActAllOutside(c.escrow, Outsiders(c.queue)), height := c.height + 1,
      queue := Wrap(Waiting(d, c.minedNonce)));
      BlockReady(c, first, c1, Ready(d, c.minedNonce));
      ExecuteAllOk(c1, Ready(d, c.minedNonce), c.height + 1, first);
    }
  }
}
