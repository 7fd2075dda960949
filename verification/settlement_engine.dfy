/**
 The engine and the simulated chain as objects updated in place. Each method is tied to the
 step machine: what it leaves behind is what a run of the machine's steps leaves behind, so
 every theorem about runs speaks about these methods.
 */
module SettlementEngine {
  import opened Common
  import opened Money
  import opened ChainModel
  import opened Settlement
  import opened SettlementSafety
  import opened SettlementLiveness
  import SettlementPhases
  import SettlementDebits

  lemma NothingTaken(nonce: nat)
    ensures Ready([], nonce) == [] && Waiting([], nonce) == [] && Wrap([]) == []
  {}

  lemma Regroup(a: seq<Tx>, b: seq<Tx>, c: seq<Tx>)
    ensures a + (b + c) == (a + b) + c
  {}

  /** One more transaction taken, or none left to take. */
  lemma TakeOne(txs: seq<Tx>, next: nat)
    ensures
      var i := Find(txs, next);
      if i == |txs| then Ready(txs, next) == [] && Waiting(txs, next) == txs
      else
        var rest := txs[..i] + txs[i + 1..];
        Ready(txs, next) == [txs[i]] + Ready(rest, next + 1) && Waiting(txs, next) == Waiting(rest, next + 1)
  {}

  class FakeChain {
    var queue: seq<Item>
    ghost var sent: map<Hash, Tx>
    var mined: seq<Mined>
    var height: nat
    var minedNonce: nat
    var pool: nat
    ghost var funded: nat
    var earnings: map<nat, nat>
    var escrow: map<nat, nat>
    var seqNo: nat
    var failNextSend: bool
    var holdPending: bool
    var revertKinds: set<Kind>

    ghost function State(): Chain
      reads this
    {
      Chain(queue, sent, mined, height, minedNonce, pool, funded, earnings, escrow, seqNo, failNextSend,
            holdPending, revertKinds)
    }

    constructor (nonce: nat, startPool: nat)
      ensures State() == Chain([], map[], [], 0, nonce, startPool, startPool, map[], map[], 0, false, false, {})
    {
      queue, sent, mined, height, minedNonce := [], map[], [], 0, nonce;
      pool, funded, earnings, escrow := startPool, startPool, map[], map[];
      seqNo, failNextSend, holdPending, revertKinds := 0, false, false, {};
    }

    /** Queue a coordinator transaction; `None` is a failed send. */
    method Send(nonce: nat, payload: Payload) returns (h: Option<Hash>)
      modifies this
      ensures (State(), h) == Broadcast(old(State()), nonce, payload)
    {
      if failNextSend {
        failNextSend := false;
        return None;
      }
      seqNo := seqNo + 1;
      var tx := Tx(seqNo, nonce, payload);
      queue := queue + [Coordinator(tx)];
      sent := sent[seqNo := tx];
      h := Some(seqNo);
    }

    method ExecuteOne(t: Tx, number: nat)
      modifies this
      ensures State() == Execute(old(State()), t, number)
    {
      hide Credit, Total;
      var forced := KindOf(t.payload) in revertKinds;
      var ok := false;
      if !forced {
        match t.payload
        case SettleBatch(payees) =>
          var total := Total(payees);
          if total <= pool {
            pool := pool - total;
            earnings := CreditAll(earnings, payees);
            ok := true;
          }
        case DepositSettlement(amount) =>
          pool := pool + amount;
          ok := true;
        case DebitEscrow(developer, amount) =>
          if amount <= Get(escrow, developer) {
            escrow := escrow[developer := Get(escrow, developer) - amount];
            ok := true;
          }
      }
      mined := mined + [Mined(t, ok, forced, number)];
      minedNonce := minedNonce + 1;
    }

    static method CreditAll(m: map<nat, nat>, payees: seq<Payee>) returns (r: map<nat, nat>)
      ensures r == Credit(m, payees)
    {
      r := m;
      var i := 0;
      while i < |payees|
        invariant 0 <= i <= |payees|
        invariant Credit(r, payees[i..]) == Credit(m, payees)
      {
        assert payees[i..][1..] == payees[i + 1..];
        r := r[payees[i].wallet := Get(r, payees[i].wallet) + payees[i].amount];
        i := i + 1;
      }
    }

    /** Split a queue: outside actions, held transactions, and a dictionary of the others by nonce. */
    static method Split(q: seq<Item>, hold: bool) returns (acts: seq<External>, held: seq<Item>, txs: seq<Tx>)
      ensures acts == Outsiders(q)
      ensures held == if hold then Wrap(Txs(q)) else []
      ensures txs == if hold then [] else ByNonce(Txs(q))
    {
      acts, held, txs := [], [], [];
      for i := 0 to |q|
        invariant acts == Outsiders(q[..i])
        invariant held == if hold then Wrap(Txs(q[..i])) else []
        invariant txs == if hold then [] else ByNonce(Txs(q[..i]))
      {
        assert q[..i + 1] == q[..i] + [q[i]];
        SplitOne(q[..i], q[i]);
        match q[i]
        case Outside(act) => acts := acts + [act];
        case Coordinator(tx) =>
          if hold { held := held + [q[i]]; } else { txs := Put(txs, tx); }
      }
      assert q[..|q|] == q;
    }

    /** Mine `n` blocks: outside actions first, then the gap-free run from the next nonce. */
    method MineAll(n: nat)
      modifies this
      ensures State() == MineBlocks(old(State()), n)
    {
      for k := 0 to n
        invariant MineBlocks(State(), n - k) == MineBlocks(old(State()), n)
      {
        MineOne();
      }
    }

    /** Pop the gap-free run of transactions starting at nonce `from`. */
    static method TakeRun(d: seq<Tx>, from: nat) returns (included: seq<Tx>, txs: seq<Tx>)
      ensures included == Ready(d, from) && txs == Waiting(d, from)
    {
      hide Ready, Waiting, Find;
      var next := from;
      included, txs := [], d;
      while Find(txs, next) < |txs|
        invariant included + Ready(txs, next) == Ready(d, from)
        invariant Waiting(txs, next) == Waiting(d, from)
        decreases |txs|
      {
        var i := Find(txs, next);
        TakeOne(txs, next);
        var rest := txs[..i] + txs[i + 1..];
        Regroup(included, [txs[i]], Ready(rest, next + 1));
        included, txs := included + [txs[i]], rest;
        next := next + 1;
      }
      TakeOne(txs, next);
      assert included + [] == included;
    }

    method MineOne()
      modifies this
      ensures State() == MineBlock(old(State()))
    {
      hide Txs, Wrap, ByNonce, Outsiders, Ready, Waiting, Execute, ActAllOutside;
      var number := height + 1;
      var acts, held, txs := Split(queue, holdPending);
      var included, waiting := TakeRun(txs, minedNonce);
      NothingTaken(minedNonce);
      assert holdPending ==> held + Wrap(waiting) == Wrap(Txs(queue));
      assert !holdPending ==> held + Wrap(waiting) == Wrap(waiting);
      queue := held + Wrap(waiting);
      height := number;
      var newEscrow := ActAll(escrow, acts);
      escrow := newEscrow;
      ExecuteRun(included, number);
    }

    static method ActAll(m: map<nat, nat>, acts: seq<External>) returns (r: map<nat, nat>)
      ensures r == ActAllOutside(m, acts)
    {
      r := m;
      for i := 0 to |acts|
        invariant ActAllOutside(r, acts[i..]) == ActAllOutside(m, acts)
      {
        assert acts[i..][1..] == acts[i + 1..];
        r := ActOutside(r, acts[i]);
      }
    }

    method ExecuteRun(txs: seq<Tx>, number: nat)
      modifies this
      ensures State() == ExecuteAll(old(State()), txs, number)
    {
      for i := 0 to |txs|
        invariant ExecuteAll(State(), txs[i..], number) == ExecuteAll(old(State()), txs, number)
      {
        assert txs[i..][1..] == txs[i + 1..];
        ExecuteOne(txs[i], number);
      }
    }
  }

  lemma {:induction false} SplitOne(q: seq<Item>, it: Item)
    ensures Outsiders(q + [it]) == Outsiders(q) + if it.Outside? then [it.act] else []
    ensures Txs(q + [it]) == Txs(q) + if it.Coordinator? then [it.tx] else []
    ensures it.Outside? ==> Txs(q + [it]) == Txs(q)
    ensures it.Coordinator? ==> ByNonce(Txs(q + [it])) == Put(ByNonce(Txs(q)), it.tx)
    ensures it.Coordinator? ==> Wrap(Txs(q + [it])) == Wrap(Txs(q)) + [it]
  {
    SplitParts(q, it);
    if it.Coordinator? {
      var txs := Txs(q) + [it.tx];
      assert txs[..|txs| - 1] == Txs(q);
      WrapAppend(Txs(q), it.tx);
    }
  }

  lemma {:induction false} SplitParts(q: seq<Item>, it: Item)
    ensures Outsiders(q + [it]) == Outsiders(q) + if it.Outside? then [it.act] else []
    ensures Txs(q + [it]) == Txs(q) + if it.Coordinator? then [it.tx] else []
  {
    if q != [] {
      assert (q + [it])[1..] == q[1..] + [it];
      SplitParts(q[1..], it);
    } else {
      assert (q + [it])[1..] == [];
    }
  }

  lemma {:induction false} WrapAppend(txs: seq<Tx>, t: Tx)
    ensures Wrap(txs + [t]) == Wrap(txs) + [Coordinator(t)]
  {
    if txs != [] {
      assert (txs + [t])[1..] == txs[1..] + [t];
      WrapAppend(txs[1..], t);
    } else {
      assert (txs + [t])[1..] == [];
    }
  }

  // ---- the engine --------------------------------------------------------------------------

  lemma {:induction false} SweepSnoc(cfg: Config, w: World, n: nat)
    ensures Run(cfg, w, Sweep(n + 1)) == DoCheck(cfg, DoSend(Run(cfg, w, Sweep(n))))
    decreases n
  {
    var w1 := DoCheck(cfg, DoSend(w));
    RunAppend(cfg, w, [SendRow, CheckRow], Sweep(n));
    RunTwo(cfg, w, SendRow, CheckRow);
    if n > 0 {
      SweepSnoc(cfg, w1, n - 1);
      RunAppend(cfg, w, [SendRow, CheckRow], Sweep(n - 1));
    }
  }

  lemma {:induction false} DebitRowsSnoc(cfg: Config, orders: seq<DebitOrder>, o: DebitOrder, base: nat)
    ensures |DebitRows(cfg, orders, base)| == |orders|
    ensures DebitRows(cfg, orders + [o], base) == DebitRows(cfg, orders, base) + DebitRows(cfg, [o], base + |orders|)
    decreases |orders|
  {
    if orders == [] {
      assert orders + [o] == [o];
    } else {
      assert (orders + [o])[1..] == orders[1..] + [o];
      DebitRowsSnoc(cfg, orders[1..], o, base + 1);
    }
  }

  lemma SameKeys(rows: seq<Row>, rs: seq<Row>, o: DebitOrder)
    requires rows <= rs
    requires forall i :: |rows| <= i < |rs| ==> rs[i].key.DebitKey? && rs[i].key.dev < o.dev
    ensures KeyTaken(rs, o) <==> KeyTaken(rows, o)
  {
    if KeyTaken(rs, o) {
      var i :| 0 <= i < |rs| && rs[i].key == DebitKey(o.dev, o.settled);
      assert rows[i] == rs[i];
    }
    if KeyTaken(rows, o) {
      var i :| 0 <= i < |rows| && rows[i].key == DebitKey(o.dev, o.settled);
      assert rs[i] == rows[i];
    }
  }

  class Engine {
    const cfg: Config
    const interval: nat
    const chain: FakeChain
    var rows: seq<Row>
    var earned: seq<nat>
    var consumed: seq<nat>
    var lastBatchAt: Option<nat>

    /** The committed state, with a session in the given stage. */
    ghost function View(session: Session): World
      reads this, chain
    {
      World(chain.State(), rows, earned, consumed, session)
    }

    predicate IntervalElapsed(now: nat)
      reads this
    {
      lastBatchAt.None? || now as int - lastBatchAt.value as int >= interval
    }

    constructor (cfg: Config, interval: nat, chain: FakeChain)
      ensures this.cfg == cfg && this.interval == interval && this.chain == chain
      ensures rows == [] && lastBatchAt.None?
      ensures |earned| == |cfg.providerWallets| && |consumed| == |cfg.devWallets|
      ensures forall p :: 0 <= p < |earned| ==> earned[p] == 0
      ensures forall d :: 0 <= d < |consumed| ==> consumed[d] == 0
    {
      this.cfg, this.interval, this.chain := cfg, interval, chain;
      rows, lastBatchAt := [], None;
      earned := seq(|cfg.providerWallets|, _ => 0);
      consumed := seq(|cfg.devWallets|, _ => 0);
    }

    /** Re-broadcast what was never sent, confirm or fail what was mined deep enough, commit. */
    method Recover()
      modifies this`rows, chain
      ensures View(Closed) == Run(cfg, old(View(Closed)), RecoverSteps(|old(rows)|))
      ensures |rows| == |old(rows)|
    {
      hide Resolve;
      ghost var w0 := View(Closed);
      ghost var w1 := DoBeginRecover(w0);
      var rs := rows;
      var latest := chain.height;
      for i := 0 to |rs|
        invariant |rs| == |rows| && unchanged(this)
        invariant View(Recovering(rs, i, latest, false)) == Run(cfg, w1, Sweep(i))
      {
        ghost var w := View(Recovering(rs, i, latest, false));
        SweepSnoc(cfg, w1, i);
        var r := rs[i];
        var sendFailed := false;
        if InFlight(r) {
          if NeedsSend(r) {
            var h := chain.Send(r.nonce, r.payload);
            if h.None? {
              sendFailed := true;
            } else {
              r := r.(txHash := h, status := Submitted);
              rs := rs[i := r];
            }
          }
          if !sendFailed {
            rs := rs[i := Resolve(cfg, chain.mined, latest, r)];
          }
        }
        assert View(Recovering(rs, i + 1, latest, false)) == DoCheck(cfg, DoSend(w));
      }
      RunRecover(cfg, w0, |rows|);
      rows := rs;
    }

    /** One leg per provider owed something, in provider order. */
    method Unsettled() returns (legs: seq<Leg>)
      ensures legs == PlanLegs(cfg, earned, rows, |earned|)
    {
      legs := [];
      for p := 0 to |earned|
        invariant legs == PlanLegs(cfg, earned, rows, p)
      {
        var owed := ToUnits(earned[p]) - Reserved(rows, p);
        if owed > 0 && WalletOf(cfg.providerWallets, p).Some? {
          legs := legs + [Leg(p, owed)];
        }
      }
    }

    /** Record a batch, unless something is in flight, nothing is owed or none is due. */
    method MaybeBatch(force: bool, now: nat)
      modifies this`rows, this`lastBatchAt
      ensures View(Closed) == Run(cfg, old(View(Closed)), BatchSteps(force, old(IntervalElapsed(now))))
      ensures lastBatchAt == if |rows| > |old(rows)| then Some(now) else old(lastBatchAt)
      ensures |rows| > |old(rows)| <==>
        var late := old(lastBatchAt.None? || now as int >= lastBatchAt.value + interval);
        !old(AnyInFlight(rows)) && SettlementPhases.BatchDue(cfg, old(rows), earned, force, late)
    {
      SettlementPhases.PlanIs(cfg, rows, earned);
      RunBatch(cfg, View(Closed), force, IntervalElapsed(now));
      if AnyInFlight(rows) {
        return;
      }
      var legs := Unsettled();
      var total := TotalUnits(legs);
      if total == 0 || !(force || total >= cfg.threshold || IntervalElapsed(now)) {
        return;
      }
      var base := BaseNonceOf();
      var shortfall := Max(0, total - chain.pool);
      var settleNonce := base;
      var added: seq<Row> := [];
      if shortfall > 0 {
        added := [Row(Pending, base, DepositSettlement(shortfall), Cycle, None, [])];
        settleNonce := base + 1;
      }
      added := added + [Row(Pending, settleNonce, SettleBatch(PayeesOf(cfg, legs)), Cycle, None, legs)];
      assert added == BatchRows(cfg, legs, base, chain.pool);
      rows := rows + added;
      lastBatchAt := Some(now);
    }

    method BaseNonceOf() returns (n: nat)
      ensures n == BaseNonce(chain.State(), rows)
    {
      n := Max(chain.minedNonce, NextRowNonce(rows));
    }

    method Orders() returns (orders: seq<DebitOrder>)
      ensures orders == PlanDebits(cfg, consumed, rows, |consumed|)
    {
      orders := [];
      for d := 0 to |consumed|
        invariant orders == PlanDebits(cfg, consumed, rows, d)
      {
        var w := WalletOf(cfg.devWallets, d);
        var settled := ToUnits(consumed[d]);
        if w.Some? && settled > DebitLive(rows, w.value) {
          orders := orders + [DebitOrder(d, settled, settled - DebitLive(rows, w.value))];
        }
      }
    }

    /** Insert one debit row per order; stop at a key that is already taken. */
    method InsertDebits(orders: seq<DebitOrder>, base: nat) returns (aborted: bool, rs: seq<Row>)
      requires forall j, k :: 0 <= j < k < |orders| ==> orders[j].dev < orders[k].dev
      ensures aborted <==> AnyKeyTaken(rows, orders)
      ensures !aborted ==> rs == rows + DebitRows(cfg, orders, base)
    {
      rs := rows;
      for k := 0 to |orders|
        invariant rs == rows + DebitRows(cfg, orders[..k], base)
        invariant forall j :: 0 <= j < k ==> !KeyTaken(rows, orders[j])
        invariant forall i :: |rows| <= i < |rs| ==>
          rs[i].key.DebitKey? && (k < |orders| ==> rs[i].key.dev < orders[k].dev)
      {
        var o := orders[k];
        SameKeys(rows, rs, o);
        if KeyTaken(rs, o) {
          return true, rs;
        }
        assert orders[..k + 1] == orders[..k] + [o];
        DebitRowsSnoc(cfg, orders[..k], o, base);
        rs := rs + DebitRows(cfg, [o], base + k);
      }
      assert orders[..|orders|] == orders;
      aborted := false;
    }

    /** Record what each developer owes; a repeated key rolls the whole phase back. */
    method MaybeDebit(force: bool, now: nat) returns (aborted: bool)
      modifies this`rows
      ensures View(Closed) == Run(cfg, old(View(Closed)), DebitSteps(force, old(IntervalElapsed(now))))
      ensures aborted <==>
        && !old(AnyInFlight(rows)) && (force || old(IntervalElapsed(now)))
        && old(AnyKeyTaken(rows, PlanDebits(cfg, consumed, rows, |consumed|)))
      ensures aborted ==> rows == old(rows)
      ensures |rows| > |old(rows)| <==>
        && !old(AnyInFlight(rows)) && (force || lastBatchAt.None? || now as int >= lastBatchAt.value + interval)
        && (exists d :: SettlementDebits.Owes(cfg, old(rows), consumed, d))
        && !(exists d :: SettlementDebits.Blocks(cfg, old(rows), consumed, d))
    {
      if !AnyInFlight(rows) { SettlementDebits.DebitPhaseIff(cfg, View(Closed)); }
      RunDebit(cfg, View(Closed), force, IntervalElapsed(now));
      if AnyInFlight(rows) || !(force || IntervalElapsed(now)) {
        return false;
      }
      var orders := Orders();
      PlanDebitsSorted(cfg, consumed, rows, |consumed|);
      var base := BaseNonceOf();
      var rs;
      aborted, rs := InsertDebits(orders, base);
      if !aborted {
        rows := rs;
      }
    }

    /**
     One tick: drain what is in flight, record a batch, record debits, broadcast what was
     recorded. Starting a batch restarts the interval; a repeated debit key ends the tick early.
     */
    method Tick(force: bool, now: nat) returns (aborted: bool)
      modifies this`rows, this`lastBatchAt, chain
      ensures
        var intent := RecoverSteps(|old(rows)|) + BatchSteps(force, old(IntervalElapsed(now)))
          + DebitSteps(force, IntervalElapsed(now));
        View(Closed) == Run(cfg, old(View(Closed)), intent + if aborted then [] else RecoverSteps(|rows|))
      ensures lastBatchAt == Some(now) || lastBatchAt == old(lastBatchAt)
    {
      hide Run;
      ghost var w0 := View(Closed);
      ghost var recover := RecoverSteps(|rows|);
      Recover();
      ghost var batch := BatchSteps(force, IntervalElapsed(now));
      RunAppend(cfg, w0, recover, batch);
      MaybeBatch(force, now);
      ghost var debit := DebitSteps(force, IntervalElapsed(now));
      RunAppend(cfg, w0, recover + batch, debit);
      aborted := MaybeDebit(force, now);
      ghost var intent := recover + batch + debit;
      if aborted {
        assert intent + [] == intent;
      } else {
        RunAppend(cfg, w0, intent, RecoverSteps(|rows|));
        Recover();
      }
    }
  }
}
