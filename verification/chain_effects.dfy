/** What a block does, transaction by transaction: which succeed, and what outsiders move. */
module ChainEffects {
  import opened Common
  import opened ChainModel

  /** Outsiders act in queue order. */
  lemma {:induction false} OutsideSnoc(escrow: map<nat, nat>, acts: seq<External>, x: External)
    ensures ActAllOutside(escrow, acts + [x]) == ActOutside(ActAllOutside(escrow, acts), x)
    decreases |acts|
  {
    if acts == [] {
      assert [] + [x] == [x] && [x][1..] == [];
    } else {
      assert (acts + [x])[0] == acts[0] && (acts + [x])[1..] == acts[1..] + [x];
      OutsideSnoc(ActOutside(escrow, acts[0]), acts[1..], x);
    }
  }

  /** A deposit adds to its own wallet, a withdrawal the wallet covers takes, anything else does nothing. */
  lemma OutsideMoves(escrow: map<nat, nat>, acts: seq<External>, x: External, v: Wallet)
    ensures
      var before := ActAllOutside(escrow, acts);
      var came := if x.Deposit? && x.wallet == v then x.amount else 0;
      var went := if x.Withdraw? && x.wallet == v && x.amount <= Get(before, v) then x.amount else 0;
      Get(ActAllOutside(escrow, acts + [x]), v) == Get(before, v) + came - went
  {
    OutsideSnoc(escrow, acts, x);
  }

  lemma {:induction false} OutsidersSnoc(q: seq<Item>, x: Item)
    ensures Outsiders(q + [x]) == Outsiders(q) + if x.Outside? then [x.act] else []
  {
    if q == [] {
      assert [] + [x] == [x] && [x][1..] == [];
    } else {
      assert (q + [x])[1..] == q[1..] + [x] && (q + [x])[0] == q[0];
      OutsidersSnoc(q[1..], x);
    }
  }

  /** A revert of the transaction's kind was asked for. */
  predicate Told(kinds: set<Kind>, p: Payload) {
    || (p.SettleBatch? && KSettle in kinds)
    || (p.DepositSettlement? && KDeposit in kinds)
    || (p.DebitEscrow? && KDebit in kinds)
  }

  /** The pool or the escrow covers the transaction, given what was mined before it. */
  predicate Affordable(p: Payload, mined: seq<Mined>, funded: nat, intake: Wallet -> nat) {
    match p
    case SettleBatch(payees) => Total(payees) <= funded + PoolFlow(mined)
    case DepositSettlement(_) => true
    case DebitEscrow(v, a) => Debited(mined, v) + a <= intake(v)
  }

  /** The pool and every escrow are what the history says of them. */
  ghost predicate Booked(c: Chain, intake: Wallet -> nat) {
    c.pool == c.funded + PoolFlow(c.mined) && forall v :: Get(c.escrow, v) + Debited(c.mined, v) == intake(v)
  }

  /** Escrow left plus escrow debited: what the chain took in. */
  function Intake(c: Chain, v: Wallet): nat { Get(c.escrow, v) + Debited(c.mined, v) }

  lemma ExecuteConserves(c: Chain, t: Tx, block: nat, v: Wallet)
    ensures Intake(Execute(c, t, block), v) == Intake(c, v)
  {
    hide Credit, Total, Debited;
    var c' := Execute(c, t, block);
    PaidAppend(c.mined, c'.mined[|c.mined|], v);
  }

  lemma ExecuteBooked(c: Chain, t: Tx, block: nat, intake: Wallet -> nat)
    requires Booked(c, intake)
    ensures Booked(Execute(c, t, block), intake)
  {
    hide Debited, PoolFlow, Execute;
    var c' := Execute(c, t, block);
    forall v ensures Get(c'.escrow, v) + Debited(c'.mined, v) == intake(v) {
      ExecuteConserves(c, t, block, v);
      assert Get(c.escrow, v) + Debited(c.mined, v) == intake(v);
    }
    ExecutePool(c, t, block);
  }

  lemma ExecutePool(c: Chain, t: Tx, block: nat)
    requires c.pool == c.funded + PoolFlow(c.mined)
    ensures
      var c' := Execute(c, t, block);
      c'.pool == c'.funded + PoolFlow(c'.mined) && c'.funded == c.funded && c'.revertKinds == c.revertKinds
  {
    hide PoolFlow, Paid, Debited, Credit, Get, Total;
    var m := Mined(t, KindOf(t.payload) !in c.revertKinds &&
      Covered(c, t.payload), KindOf(t.payload) in c.revertKinds, block);
    PaidAppend(c.mined, m, 0);
    assert Execute(c, t, block).mined == c.mined + [m];
  }

  lemma ExecuteIs(c: Chain, t: Tx, block: nat, intake: Wallet -> nat)
    requires Booked(c, intake)
    ensures
      var c' := Execute(c, t, block);
      && c'.mined == c.mined + [c'.mined[|c.mined|]]
      && Outcome(c'.mined[|c.mined|], c.mined, c.revertKinds, c.funded, intake, block)
  {
    hide Debited, PoolFlow, Credit, Effect;
    if t.payload.DebitEscrow? {
      var v := t.payload.developer;
      assert Get(c.escrow, v) + Debited(c.mined, v) == intake(v);
    }
  }

  ghost predicate Outcome(m: Mined, before: seq<Mined>, kinds: set<Kind>, funded: nat, intake: Wallet -> nat,
      block: nat) {
    && m.block == block && (m.forced <==> Told(kinds, m.tx.payload))
    && (m.ok <==> !m.forced && Affordable(m.tx.payload, before, funded, intake))
  }

  lemma {:induction false} ExecuteAllIs(c: Chain, txs: seq<Tx>, block: nat, intake: Wallet -> nat)
    requires Booked(c, intake)
    ensures
      var c' := ExecuteAll(c, txs, block);
      && c.mined <= c'.mined && |c'.mined| == |c.mined| + |txs|
      && forall k :: |c.mined| <= k < |c'.mined| ==>
        Outcome(c'.mined[k], c'.mined[..k], c.revertKinds, c.funded, intake, block)
    decreases |txs|
  {
    hide Outcome, Execute, Debited, PoolFlow;
    if txs != [] {
      var c1 := Execute(c, txs[0], block);
      ExecuteIs(c, txs[0], block, intake);
      ExecuteBooked(c, txs[0], block, intake);
      ExecutePool(c, txs[0], block);
      ExecuteAllIs(c1, txs[1..], block, intake);
      var c' := ExecuteAll(c, txs, block);
      assert c'.mined[..|c.mined|] == c.mined && c'.mined[|c.mined|] == c1.mined[|c.mined|];
    }
  }

  /** A wallet's escrow once a block's outsiders have acted, and everything debited from it before. */
  function Supply(c: Chain): Wallet -> nat {
    (v: Wallet) => Get(ActAllOutside(c.escrow, Outsiders(c.queue)), v) + Debited(c.mined, v)
  }

  /**
   In every block each coordinator transaction succeeds if and only if no revert of its kind was
   asked for and the pool, or its wallet's escrow after the block's outsiders, still covers it
   at its turn.
   */
  lemma MinedOkIff(c: Chain, first: nat, k: nat)
    requires ChainOk(c, first) && |c.mined| <= k < |MineBlock(c).mined|
    ensures
      var c' := MineBlock(c);
      Outcome(c'.mined[k], c'.mined[..k], c.revertKinds, c.funded, Supply(c), c.height + 1)
  {
    hide ExecuteAll, Outcome, ActAllOutside, Outsiders, Debited, PoolFlow, Ready, Waiting, ByNonce, Txs, Wrap;
    var d := ByNonce(Txs(c.queue));
    var c1 := c.(escrow := ActAllOutside(c.escrow, Outsiders(c.queue)), height := c.height + 1,
      queue := Wrap(Waiting(d, c.minedNonce)));
    assert Booked(c1, Supply(c));
    ExecuteAllIs(c1, Ready(d, c.minedNonce), c.height + 1, Supply(c));
  }

  /**
   A send queues one transaction under a hash never used, or, when told to fail, fails once and changes nothing else.
   */
  lemma BroadcastIs(c: Chain, first: nat, nonce: nat, payload: Payload)
    requires ChainOk(c, first)
    ensures
      var (c', h) := Broadcast(c, nonce, payload);
      if c.failNextSend then h.None? && c' == c.(failNextSend := false)
      else
        && h.Some? && h.value !in c.sent && c' == c.(queue := c'.queue, sent := c'.sent, seqNo := c'.seqNo)
        && c'.queue == c.queue + [Coordinator(Tx(h.value, nonce, payload))]
        && c'.sent == c.sent[h.value := Tx(h.value, nonce, payload)]
  {
    if !c.failNextSend { BroadcastOk(c, nonce, payload, first); }
  }
}
