/**
 The developer check run against the settlement engine's own table and chain: the chain's
 escrow is conserved over every run, confirmed debit rows are debits the chain made, and what
 the check reports follows, in flight or not.
 */
module ReconcileEngine {
  import opened Common
  import opened Money
  import opened ChainModel
  import opened ChainEffects
  import opened Settlement
  import opened SettlementSafety
  import Reconcile
  import ReconcileChecks

  // ---- the chain's escrow ---------------------------------------------------------------------------

  /** What outsiders moved into a wallet's escrow over a run, as the blocks mined it. */
  function Received(cfg: Config, w: World, steps: seq<Step>, v: Wallet): int
    decreases |steps|
  {
    if steps == [] then 0
    else
      var moved :=
        if steps[0].Mine?
        then Get(ActAllOutside(w.chain.escrow, Outsiders(w.chain.queue)), v) - Get(w.chain.escrow, v)
        else 0;
      moved + Received(cfg, Next(cfg, w, steps[0]), steps[1..], v)
  }

  lemma {:induction false} ExecuteAllConserves(c: Chain, txs: seq<Tx>, block: nat, v: Wallet)
    ensures Intake(ExecuteAll(c, txs, block), v) == Intake(c, v)
    decreases |txs|
  {
    hide Execute, Intake;
    if txs != [] {
      ExecuteConserves(c, txs[0], block, v);
      ExecuteAllConserves(Execute(c, txs[0], block), txs[1..], block, v);
    }
  }

  lemma MineConserves(c: Chain, v: Wallet)
    ensures Intake(MineBlock(c), v) == Get(ActAllOutside(c.escrow, Outsiders(c.queue)), v) + Debited(c.mined, v)
  {
    hide ExecuteAll, Debited, ActAllOutside, Outsiders, Wrap, Waiting, Ready, ByNonce, Txs;
    var d := ByNonce(Txs(c.queue));
    var c1 := c.(escrow := ActAllOutside(c.escrow, Outsiders(c.queue)), height := c.height + 1,
      queue := Wrap(Waiting(d, c.minedNonce)));
    ExecuteAllConserves(c1, Ready(d, c.minedNonce), c.height + 1, v);
  }

  lemma SendConserves(w: World, v: Wallet)
    ensures Intake(DoSend(w).chain, v) == Intake(w.chain, v)
  {
    hide Debited;
  }

  /** Over every run, escrow left plus escrow debited is what was there and what outsiders moved. */
  lemma {:induction false} EscrowConserved(cfg: Config, w: World, steps: seq<Step>, v: Wallet)
    ensures Intake(Run(cfg, w, steps).chain, v) == Intake(w.chain, v) + Received(cfg, w, steps, v)
    decreases |steps|
  {
    hide MineBlock, DoSend, Debited, ActAllOutside, Outsiders;
    if steps != [] {
      MineConserves(w.chain, v);
      StepConserves(cfg, w, steps[0], v);
      EscrowConserved(cfg, Next(cfg, w, steps[0]), steps[1..], v);
    }
  }

  lemma StepConserves(cfg: Config, w: World, s: Step, v: Wallet)
    ensures !s.Mine? ==> Intake(Next(cfg, w, s).chain, v) == Intake(w.chain, v)
  {
    hide Debited, MineBlock, DoSend;
    SendConserves(w, v);
  }

  // ---- deposits arrive ---------------------------------------------------------------------------------

  predicate Deposits(x: External, v: Wallet) { x.Deposit? && x.wallet == v }

  predicate Withdraws(x: External, v: Wallet) { x.Withdraw? && x.wallet == v }

  /** What a list of outside actions deposits for a wallet. */
  function DepositSum(acts: seq<External>, v: Wallet): nat {
    if acts == [] then 0 else (if Deposits(acts[0], v) then acts[0].amount else 0) + DepositSum(acts[1..], v)
  }

  /** What a run deposits for a wallet. */
  function Deposited(steps: seq<Step>, v: Wallet): nat {
    if steps == [] then 0
    else
      (if steps[0].Act? && Deposits(steps[0].act, v) then steps[0].act.amount else 0) + Deposited(steps[1..], v)
  }

  lemma {:induction false} DepositsAct(escrow: map<nat, nat>, acts: seq<External>, v: Wallet)
    requires forall x :: x in acts ==> !Withdraws(x, v)
    ensures Get(ActAllOutside(escrow, acts), v) == Get(escrow, v) + DepositSum(acts, v)
    decreases |acts|
  {
    if acts != [] {
      assert acts[0] in acts;
      DepositsAct(ActOutside(escrow, acts[0]), acts[1..], v);
    }
  }

  lemma {:induction false} DepositSumAppend(acts: seq<External>, x: External, v: Wallet)
    ensures DepositSum(acts + [x], v) == DepositSum(acts, v) + if Deposits(x, v) then x.amount else 0
    decreases |acts|
  {
    if acts == [] {
      assert [] + [x] == [x] && [x][1..] == [];
    } else {
      assert (acts + [x])[0] == acts[0] && (acts + [x])[1..] == acts[1..] + [x];
      DepositSumAppend(acts[1..], x, v);
    }
  }

  lemma {:induction false} NoOutsiders(txs: seq<Tx>)
    ensures Outsiders(Wrap(txs)) == []
  {
    if txs != [] {
      assert Wrap(txs)[1..] == Wrap(txs[1..]);
      NoOutsiders(txs[1..]);
    }
  }

  lemma MineEmpties(c: Chain, first: nat)
    requires ChainOk(c, first)
    ensures Outsiders(MineBlock(c).queue) == []
  {
    hide ExecuteAll, ChainOk, Txs, Wrap, Outsiders, Ready, Waiting, ByNonce;
    NoOutsiders(Txs(c.queue));
    var d := ByNonce(Txs(c.queue));
    NoOutsiders(Waiting(d, c.minedNonce));
    var c1 := c.(escrow := ActAllOutside(c.escrow, Outsiders(c.queue)), height := c.height + 1,
      queue := Wrap(Waiting(d, c.minedNonce)));
    BlockReady(c, first, c1, Ready(d, c.minedNonce));
    ExecuteAllOk(c1, Ready(d, c.minedNonce), c.height + 1, first);
  }

  /** No withdrawal of the wallet waits, and what is there, debited or waiting is `total`. */
  ghost predicate Accounted(c: Chain, v: Wallet, total: nat) {
    && (forall x :: x in Outsiders(c.queue) ==> !Withdraws(x, v))
    && Intake(c, v) + DepositSum(Outsiders(c.queue), v) == total
  }

  lemma MineAccounted(c: Chain, first: nat, v: Wallet, total: nat)
    requires ChainOk(c, first) && Accounted(c, v, total)
    ensures Accounted(MineBlock(c), v, total)
  {
    hide MineBlock, ChainOk, Outsiders, ActAllOutside, Debited;
    MineConserves(c, v);
    MineEmpties(c, first);
    DepositsAct(c.escrow, Outsiders(c.queue), v);
  }

  lemma ActAccounted(c: Chain, v: Wallet, total: nat, x: External)
    requires Accounted(c, v, total) && !Withdraws(x, v)
    ensures Accounted(c.(queue := c.queue + [Outside(x)]), v, total + if Deposits(x, v) then x.amount else 0)
  {
    hide Outsiders, DepositSum, Debited;
    OutsidersSnoc(c.queue, Outside(x));
    DepositSumAppend(Outsiders(c.queue), x, v);
  }

  lemma SendAccounted(w: World, v: Wallet, total: nat)
    requires Accounted(w.chain, v, total)
    ensures Accounted(DoSend(w).chain, v, total)
  {
    hide Outsiders, DepositSum, Debited;
    var ss := w.session;
    if ss.Recovering? && !ss.sent && ss.next < |ss.rows| {
      var r := ss.rows[ss.next];
      OutsidersSnoc(w.chain.queue, Coordinator(Tx(w.chain.seqNo + 1, r.nonce, r.payload)));
      assert Outsiders(w.chain.queue) + [] == Outsiders(w.chain.queue);
    }
  }

  lemma StepAccounted(cfg: Config, w: World, s: Step, v: Wallet, total: nat)
    requires Inv(cfg, w) && Accounted(w.chain, v, total) && !(s.Act? && Withdraws(s.act, v))
    ensures
      Accounted(Next(cfg, w, s).chain, v, total + if s.Act? && Deposits(s.act, v) then s.act.amount else 0)
  {
    hide MineBlock, DoSend, Accounted, Resolve, PlanLegs, PlanDebits, BatchRows, DebitRows, AnyInFlight, AnyKeyTaken,
      BaseNonce, Withdraws, Deposits;
    match s
    case Mine => MineAccounted(w.chain, cfg.first, v, total);
    case Act(x) => ActAccounted(w.chain, v, total, x);
    case SendRow => SendAccounted(w, v, total);
    case Fund(_) => SameAccounted(w.chain, Next(cfg, w, s).chain, v, total);
    case FailNextSend(_) => SameAccounted(w.chain, Next(cfg, w, s).chain, v, total);
    case HoldPending(_) => SameAccounted(w.chain, Next(cfg, w, s).chain, v, total);
    case ForceRevert(_, _) => SameAccounted(w.chain, Next(cfg, w, s).chain, v, total);
    case _ =>
  }

  lemma SameAccounted(c: Chain, c': Chain, v: Wallet, total: nat)
    requires Accounted(c, v, total) && c'.queue == c.queue && c'.escrow == c.escrow && c'.mined == c.mined
    ensures Accounted(c', v, total)
  {}

  lemma {:induction false} RunAccounted(cfg: Config, w: World, steps: seq<Step>, v: Wallet, total: nat)
    requires Inv(cfg, w) && Distinct(cfg.devWallets) && Accounted(w.chain, v, total)
    requires forall s :: s in steps ==> !(s.Act? && Withdraws(s.act, v))
    ensures Accounted(Run(cfg, w, steps).chain, v, total + Deposited(steps, v))
    decreases |steps|
  {
    hide Inv, Next, Accounted, Withdraws, Deposits;
    if steps != [] {
      var s := steps[0];
      assert s in steps;
      StepInv(cfg, w, s);
      StepAccounted(cfg, w, s, v, total);
      RunAccounted(cfg, Next(cfg, w, s), steps[1..], v,
        total + if s.Act? && Deposits(s.act, v) then s.act.amount else 0);
    }
  }

  /**
   Every deposit arrives: over any run in which a wallet withdraws nothing, its escrow, what was
   debited from it and what still waits to be mined are what it started with and deposited.
   */
  lemma DepositsArrive(cfg: Config, w0: World, steps: seq<Step>, v: Wallet)
    requires Initial(cfg, w0) && Distinct(cfg.devWallets)
    requires forall s :: s in steps ==> !(s.Act? && Withdraws(s.act, v))
    ensures
      var c := Run(cfg, w0, steps).chain;
      Get(c.escrow, v) + Debited(c.mined, v) + DepositSum(Outsiders(c.queue), v) ==
        Get(w0.chain.escrow, v) + Deposited(steps, v)
  {
    hide Run, Inv;
    InitialInv(cfg, w0);
    RunAccounted(cfg, w0, steps, v, Get(w0.chain.escrow, v));
  }

  // ---- confirmed debits -------------------------------------------------------------------------------

  /** Units of confirmed debits of a wallet. */
  function ConfirmedUnits(rows: seq<Row>, v: Wallet): nat {
    if rows == [] then 0
    else
      var r := rows[|rows| - 1];
      ConfirmedUnits(rows[..|rows| - 1], v) + if r.status == Confirmed then DebitOf(r.payload, v) else 0
  }

  lemma RowConfirmed(cfg: Config, c: Chain, r: Row, k: nat, v: Wallet)
    requires RowOk(cfg, c.sent, c.mined, r, k) && (k < |c.mined| ==> c.mined[k].tx.payload == r.payload)
    ensures
      var confirmed := if r.status == Confirmed then DebitOf(r.payload, v) else 0;
      var made := if k < |c.mined| && c.mined[k].ok then DebitOf(c.mined[k].tx.payload, v) else 0;
      confirmed <= made && (!InFlight(r) ==> confirmed == made)
  {}

  /** A confirmed debit was made on the chain, and once nothing is in flight every debit made is confirmed. */
  lemma {:induction false} ConfirmedUpTo(cfg: Config, c: Chain, rows: seq<Row>, v: Wallet, n: nat)
    requires |c.mined| <= |rows| && n <= |rows| && RowsOk(cfg, c, rows)
    requires forall i :: 0 <= i < |c.mined| ==> c.mined[i].tx.payload == rows[i].payload
    ensures ConfirmedUnits(rows[..n], v) <= Debited(c.mined[..Min(n, |c.mined|)], v)
    ensures n <= |c.mined| && !AnyInFlight(rows) ==> ConfirmedUnits(rows[..n], v) == Debited(c.mined[..n], v)
  {
    hide RowOk;
    if n > 0 {
      var k := n - 1;
      ConfirmedUpTo(cfg, c, rows, v, k);
      assert rows[..n][..k] == rows[..k];
      RowConfirmed(cfg, c, rows[k], k, v);
      if n <= |c.mined| {
        assert c.mined[..n] == c.mined[..k] + [c.mined[k]];
        PaidAppend(c.mined[..k], c.mined[k], v);
      } else {
        assert Min(k, |c.mined|) == |c.mined|;
      }
    }
  }

  lemma ConfirmedDebits(cfg: Config, w: World, v: Wallet)
    requires Inv(cfg, w)
    ensures ConfirmedUnits(w.rows, v) <= Debited(w.chain.mined, v)
    ensures !AnyInFlight(w.rows) ==> ConfirmedUnits(w.rows, v) == Debited(w.chain.mined, v)
  {
    hide RowOk, ConfirmedUnits, Debited, SentMatch, HistoryOk, TailOk, SessionOk, ReservedOk, DebitsOk;
    MinedRecorded(cfg, w);
    if !AnyInFlight(w.rows) { ResolvedMined(cfg, w); }
    ConfirmedUpTo(cfg, w.chain, w.rows, v, |w.rows|);
    assert w.rows[..|w.rows|] == w.rows && w.chain.mined[..|w.chain.mined|] == w.chain.mined;
  }

  /** The developer a wallet belongs to. */
  function OwnerOf(ws: seq<Option<Wallet>>, v: Wallet): Option<nat> {
    if ws == [] then None
    else if ws[|ws| - 1] == Some(v) then Some(|ws| - 1)
    else OwnerOf(ws[..|ws| - 1], v)
  }

  lemma {:induction false} OwnerIs(ws: seq<Option<Wallet>>, v: Wallet, d: nat)
    requires Distinct(ws)
    ensures OwnerOf(ws, v) == Some(d) <==> d < |ws| && ws[d] == Some(v)
    decreases |ws|
  {
    if ws != [] { OwnerIs(ws[..|ws| - 1], v, d); }
  }

  /** The confirmed debits of the table, by developer. */
  function ConfirmedRows(cfg: Config, rows: seq<Row>): seq<Reconcile.DebitRow> {
    if rows == [] then []
    else
      var r := rows[|rows| - 1];
      ConfirmedRows(cfg, rows[..|rows| - 1])
      + if r.status == Confirmed && r.payload.DebitEscrow? && OwnerOf(cfg.devWallets, r.payload.developer).Some?
        then [Reconcile.DebitRow(OwnerOf(cfg.devWallets, r.payload.developer).value, r.payload.amount)]
        else []
  }

  lemma {:induction false} ConfirmedByOwner(cfg: Config, rows: seq<Row>, d: nat)
    requires Distinct(cfg.devWallets) && d < |cfg.devWallets| && cfg.devWallets[d].Some?
    ensures Reconcile.DebitedUnits(ConfirmedRows(cfg, rows), d) == ConfirmedUnits(rows, cfg.devWallets[d].value)
    decreases |rows|
  {
    hide Distinct, OwnerOf;
    if rows != [] {
      var rest, r := rows[..|rows| - 1], rows[|rows| - 1];
      ConfirmedByOwner(cfg, rest, d);
      if r.payload.DebitEscrow? { OwnerIs(cfg.devWallets, r.payload.developer, d); }
      var before, all := ConfirmedRows(cfg, rest), ConfirmedRows(cfg, rows);
      if all != before { assert all[..|all| - 1] == before; }
    }
  }

  // ---- the developer check --------------------------------------------------------------------------------

  lemma {:induction false} NoDebitRows(w: Reconcile.World, book: seq<Reconcile.Step>)
    requires w.debits == [] && forall s :: s in book ==> !s.Debited?
    ensures Reconcile.Run(w, book).debits == []
    decreases |book|
  {
    hide Reconcile.Postings, Reconcile.Possible;
    if book != [] {
      assert book[0] in book;
      NoDebitRows(Reconcile.Next(w, book[0]), book[1..]);
    }
  }

  /**
   Whatever the engine, the chain and the ledger did, once the ledger has every deposit and
   withdrawal the chain mined: the developer check is off by the units it cannot see, less the
   debits made and not yet confirmed; and with nothing in flight there are none of those.
   */
  lemma EngineDelta(cfg: Config, w0: World, steps: seq<Step>, book: seq<Reconcile.Step>, d: nat)
    requires Initial(cfg, w0) && Distinct(cfg.devWallets) && d < |cfg.devWallets| && cfg.devWallets[d].Some?
    requires forall s :: s in book ==> !s.Debited?
    requires
      var v := cfg.devWallets[d].value;
      Get(Reconcile.Run(Reconcile.EMPTY, book).escrow, d) == Get(w0.chain.escrow, v) + Received(cfg, w0, steps, v)
    ensures
      var w, v := Run(cfg, w0, steps), cfg.devWallets[d].value;
      var l := Reconcile.Run(Reconcile.EMPTY, book).ledger;
      var consumed, other := Reconcile.Consumed(l, d), Reconcile.Uncounted(l, d);
      var e := Reconcile.Expected(l, ConfirmedRows(cfg, w.rows), d);
      var unconfirmed := Debited(w.chain.mined, v) - ConfirmedUnits(w.rows, v);
      && consumed >= 0 && other >= 0
      && unconfirmed >= 0 && (!AnyInFlight(w.rows) ==> unconfirmed == 0)
      && (e.None? <==> Reconcile.Claim(l, d) < 0)
      && (e.Some? ==>
        var unseen := ReconcileChecks.UnitsUp(consumed + other) - ToUnits(consumed);
        Get(w.chain.escrow, v) - e.value == unseen - unconfirmed)
  {
    hide Run, Inv, Initial, Reconcile.Run, Reconcile.Consumed, Reconcile.Uncounted, Reconcile.Claim, ConfirmedRows,
      ConfirmedUnits, Received, Debited, AnyInFlight;
    var w, v := Run(cfg, w0, steps), cfg.devWallets[d].value;
    StartsEmpty(cfg, w0);
    EscrowConserved(cfg, w0, steps, v);
    InitialInv(cfg, w0);
    RunInv(cfg, w0, steps);
    ConfirmedDebits(cfg, w, v);
    ConfirmedByOwner(cfg, w.rows, d);
    NoDebitRows(Reconcile.EMPTY, book);
    ReconcileChecks.DeveloperDelta(book, d);
    assert Debited([], v) == 0 by { NothingDebited(v); }
  }

  /** So the check reports a developer it can read if and only if the two do not cancel out. */
  lemma EngineDiffers(cfg: Config, w0: World, steps: seq<Step>, book: seq<Reconcile.Step>, d: nat, read: map<nat, nat>)
    requires Initial(cfg, w0) && Distinct(cfg.devWallets) && d < |cfg.devWallets| && cfg.devWallets[d].Some?
    requires forall s :: s in book ==> !s.Debited?
    requires
      var v := cfg.devWallets[d].value;
      && Get(Reconcile.Run(Reconcile.EMPTY, book).escrow, d) == Get(w0.chain.escrow, v) + Received(cfg, w0, steps, v)
      && Get(read, d) == Get(Run(cfg, w0, steps).chain.escrow, v)
    ensures
      var w, v := Run(cfg, w0, steps), cfg.devWallets[d].value;
      var l := Reconcile.Run(Reconcile.EMPTY, book).ledger;
      var consumed, other := Reconcile.Consumed(l, d), Reconcile.Uncounted(l, d);
      var unconfirmed := Debited(w.chain.mined, v) - ConfirmedUnits(w.rows, v);
      && consumed >= 0 && other >= 0
      && (ReconcileChecks.Differs(Reconcile.World(l, read, ConfirmedRows(cfg, w.rows)), d) <==>
        Reconcile.Claim(l, d) >= 0 && ReconcileChecks.UnitsUp(consumed + other) - ToUnits(consumed) != unconfirmed)
  {
    hide Run, Initial, Reconcile.Run, Reconcile.Expected, Reconcile.Consumed, Reconcile.Uncounted, Reconcile.Claim,
      ConfirmedRows, ConfirmedUnits, Received, Debited, AnyInFlight, ReconcileChecks.UnitsUp;
    EngineDelta(cfg, w0, steps, book, d);
  }

  lemma StartsEmpty(cfg: Config, w: World)
    requires Initial(cfg, w)
    ensures w.chain.mined == []
  {}

  lemma NothingDebited(v: Wallet)
    ensures Debited([], v) == 0
  {}
}
