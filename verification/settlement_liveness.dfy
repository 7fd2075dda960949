/**
 When an in-flight row can still be resolved. The engine recognises a mined transaction only
 by the hash it stored; when the commit holding that hash was lost and the transaction was
 mined anyway, the row can never be resolved and, since a row stays in flight, nothing new is
 ever recorded again. It is safe, but the table is wedged.
 */
module SettlementLiveness {
  import opened Common
  import opened Money
  import opened ChainModel
  import opened Settlement
  import opened SettlementSafety

  /** A row in flight whose nonce was consumed under another hash than the one it stored. */
  ghost predicate StuckRow(mined: seq<Mined>, r: Row, i: nat) {
    i < |mined| && InFlight(r) && r.txHash != Some(mined[i].tx.hash)
  }

  ghost predicate Stuck(w: World, i: nat) {
    && i < |w.rows| && StuckRow(w.chain.mined, w.rows[i], i)
    && (w.session.Closed?
    || (w.session.Recovering? && i < |w.session.rows| && StuckRow(w.chain.mined, w.session.rows[i], i)))
  }

  lemma StuckMine(cfg: Config, w: World, i: nat)
    requires Inv(cfg, w) && Stuck(w, i)
    ensures Stuck(w.(chain := MineBlock(w.chain)), i)
  {
    MineBlockOk(w.chain, cfg.first);
  }

  /** A re-broadcast gets a fresh hash, which is not the hash that was mined. */
  lemma StuckSend(cfg: Config, w: World, i: nat)
    requires Inv(cfg, w) && Stuck(w, i)
    ensures Stuck(DoSend(w), i) && DoSend(w).rows == w.rows
  {
    assert WasSent(w.chain.sent, w.chain.mined[i].tx);
    assert w.chain.mined[i].tx.hash <= w.chain.seqNo;
  }

  /** There is no receipt under the stored hash, because a receipt would be the row's own. */
  lemma StuckCheck(cfg: Config, w: World, i: nat)
    requires Inv(cfg, w) && Stuck(w, i)
    ensures Stuck(DoCheck(cfg, w), i) && DoCheck(cfg, w).rows == w.rows
  {
    var ss := w.session;
    if ss.Recovering? && ss.sent && ss.next < |ss.rows| && ss.next == i {
      var r := ss.rows[i];
      assert RowOk(cfg, w.chain.sent, w.chain.mined, r, i);
      if r.txHash.Some? && ReceiptAt(w.chain.mined, r.txHash.value).Some? {
        ReceiptIsOwn(cfg, w.chain, r, i);
        assert false;
      }
    }
  }

  lemma StuckCommit(cfg: Config, w: World, i: nat)
    requires Inv(cfg, w) && Stuck(w, i)
    ensures Stuck(DoCommit(w), i) && |DoCommit(w).rows| == |w.rows|
  {
    if w.session.Recovering? { assert SameWork(w.session.rows, w.rows); }
  }

  lemma StuckStep(cfg: Config, w: World, i: nat, s: Step)
    requires Inv(cfg, w) && Stuck(w, i)
    ensures Stuck(Next(cfg, w, s), i) && |Next(cfg, w, s).rows| == |w.rows|
  {
    hide Inv, MineBlock, DoSend, DoCheck;
    assert AnyInFlight(w.rows);
    match s
    case Mine => StuckMine(cfg, w, i);
    case SendRow => StuckSend(cfg, w, i);
    case CheckRow => StuckCheck(cfg, w, i);
    case Commit => StuckCommit(cfg, w, i);
    case _ =>
  }

  /** Once stuck, stuck in every continuation, and no row is ever added again. */
  lemma {:induction false} StuckForever(cfg: Config, w: World, i: nat, steps: seq<Step>)
    requires Inv(cfg, w) && Stuck(w, i) && Distinct(cfg.devWallets)
    ensures Stuck(Run(cfg, w, steps), i) && |Run(cfg, w, steps).rows| == |w.rows|
    decreases |steps|
  {
    hide Inv;
    if steps != [] {
      StuckStep(cfg, w, i, steps[0]);
      StepInv(cfg, w, steps[0]);
      StuckForever(cfg, Next(cfg, w, steps[0]), i, steps[1..]);
    }
  }

  // ---- a row that stored the right hash does resolve --------------------------------------------

  function Repeat(s: Step, n: nat): seq<Step> {
    if n == 0 then [] else [s] + Repeat(s, n - 1)
  }

  /** Send and check, `n` rows in a row. */
  function Sweep(n: nat): seq<Step> {
    if n == 0 then [] else [SendRow, CheckRow] + Sweep(n - 1)
  }

  lemma {:induction false} RunAppend(cfg: Config, w: World, a: seq<Step>, b: seq<Step>)
    ensures Run(cfg, w, a + b) == Run(cfg, Run(cfg, w, a), b)
    decreases |a|
  {
    if a == [] {
      assert a + b == b;
    } else {
      assert (a + b)[1..] == a[1..] + b;
      RunAppend(cfg, Next(cfg, w, a[0]), a[1..], b);
    }
  }

  lemma RunTwo(cfg: Config, w: World, s: Step, t: Step)
    ensures Run(cfg, w, [s, t]) == Next(cfg, Next(cfg, w, s), t)
  {
    assert [s, t][1..] == [t];
    assert Run(cfg, Next(cfg, w, s), [t]) == Run(cfg, Next(cfg, Next(cfg, w, s), t), []);
  }

  /** A whole recovery pass over `n` rows. */
  function RecoverSteps(n: nat): seq<Step> { [BeginRecover] + (Sweep(n) + [Commit]) }

  lemma RunRecover(cfg: Config, w: World, n: nat)
    ensures Run(cfg, w, RecoverSteps(n)) == DoCommit(Run(cfg, DoBeginRecover(w), Sweep(n)))
  {
    assert RecoverSteps(n)[1..] == Sweep(n) + [Commit];
    RunAppend(cfg, DoBeginRecover(w), Sweep(n), [Commit]);
    var w1 := Run(cfg, DoBeginRecover(w), Sweep(n));
    assert Run(cfg, w1, [Commit]) == Run(cfg, DoCommit(w1), []);
  }

  function BatchSteps(force: bool, elapsed: bool): seq<Step> {
    [BeginBatch(force, elapsed), ReserveNonce] + [RecordBatch, Commit]
  }

  function DebitSteps(force: bool, elapsed: bool): seq<Step> {
    [BeginDebit(force, elapsed), RecordDebits] + [Commit]
  }

  lemma RunBatch(cfg: Config, w: World, force: bool, elapsed: bool)
    ensures Run(cfg, w, BatchSteps(force, elapsed)) ==
            DoCommit(DoRecordBatch(cfg, DoReserveNonce(DoBeginBatch(cfg, w, force, elapsed))))
  {
    RunAppend(cfg, w, [BeginBatch(force, elapsed), ReserveNonce], [RecordBatch, Commit]);
    RunTwo(cfg, w, BeginBatch(force, elapsed), ReserveNonce);
    RunTwo(cfg, DoReserveNonce(DoBeginBatch(cfg, w, force, elapsed)), RecordBatch, Commit);
  }

  lemma RunDebit(cfg: Config, w: World, force: bool, elapsed: bool)
    ensures Run(cfg, w, DebitSteps(force, elapsed)) ==
            DoCommit(DoRecordDebits(cfg, DoBeginDebit(cfg, w, force, elapsed)))
  {
    RunAppend(cfg, w, [BeginDebit(force, elapsed), RecordDebits], [Commit]);
    RunTwo(cfg, w, BeginDebit(force, elapsed), RecordDebits);
    var w1 := DoRecordDebits(cfg, DoBeginDebit(cfg, w, force, elapsed));
    assert Run(cfg, w1, [Commit]) == Run(cfg, DoCommit(w1), []);
  }

  ghost predicate Buried(cfg: Config, w: World, i: nat) {
    && i < |w.rows| && i < |w.chain.mined|
    && w.rows[i].txHash == Some(w.chain.mined[i].tx.hash)
    && cfg.confirmations + w.chain.mined[i].block <= w.chain.height + 1
  }

  lemma MineGrows(cfg: Config, w: World)
    requires Inv(cfg, w)
    ensures w.chain.mined <= MineBlock(w.chain).mined && MineBlock(w.chain).height == w.chain.height + 1
  {
    MineBlockOk(w.chain, cfg.first);
    MineHeight(w.chain);
  }

  /** Mining blocks buries what was already mined and touches nothing durable. */
  lemma {:induction false} MineOn(cfg: Config, w: World, n: nat)
    requires Inv(cfg, w) && Distinct(cfg.devWallets)
    ensures
      var w' := Run(cfg, w, Repeat(Mine, n));
      && Inv(cfg, w') && w'.rows == w.rows && w'.session == w.session
      && w.chain.mined <= w'.chain.mined && w'.chain.height == w.chain.height + n
    decreases n
  {
    hide Inv;
    if n > 0 {
      StepInv(cfg, w, Mine);
      MineGrows(cfg, w);
      assert Repeat(Mine, n)[1..] == Repeat(Mine, n - 1);
      MineOn(cfg, Next(cfg, w, Mine), n - 1);
    }
  }

  lemma {:induction false} ExecuteAllHeight(c: Chain, txs: seq<Tx>, block: nat)
    ensures ExecuteAll(c, txs, block).height == c.height
    decreases |txs|
  {
    if txs != [] { ExecuteAllHeight(Execute(c, txs[0], block), txs[1..], block); }
  }

  lemma MineHeight(c: Chain)
    ensures MineBlock(c).height == c.height + 1
  {
    var d := ByNonce(Txs(c.queue));
    var c1 := c.(escrow := ActAllOutside(c.escrow, Outsiders(c.queue)), height := c.height + 1);
    ExecuteAllHeight(c1.(queue := Wrap(Waiting(d, c.minedNonce))), Ready(d, c.minedNonce), c.height + 1);
  }

  /** One row of a sweep: the cursor moves on, other rows of the session stay as they are. */
  lemma SweepOne(cfg: Config, w: World)
    requires w.session.Recovering? && !w.session.sent && w.session.next < |w.session.rows|
    ensures
      var w' := DoCheck(cfg, DoSend(w));
      && w'.session.Recovering? && !w'.session.sent && w'.session.next == w.session.next + 1
      && w'.session.latest == w.session.latest && |w'.session.rows| == |w.session.rows|
      && w'.rows == w.rows && w'.chain.mined == w.chain.mined
      && forall j :: 0 <= j < |w.session.rows| && j != w.session.next ==> w'.session.rows[j] == w.session.rows[j]
  {
  }

  lemma {:induction false} SweepTo(cfg: Config, w: World, n: nat)
    requires Inv(cfg, w) && Distinct(cfg.devWallets)
    requires w.session.Recovering? && !w.session.sent && w.session.next + n <= |w.session.rows|
    ensures
      var w' := Run(cfg, w, Sweep(n));
      && Inv(cfg, w') && w'.session.Recovering? && !w'.session.sent && w'.session.next == w.session.next + n
      && w'.session.latest == w.session.latest && |w'.session.rows| == |w.session.rows|
      && w'.chain.mined == w.chain.mined
      && forall j :: w.session.next + n <= j < |w.session.rows| ==> w'.session.rows[j] == w.session.rows[j]
    decreases n
  {
    hide Inv, DoSend, DoCheck;
    if n > 0 {
      var w1 := DoCheck(cfg, DoSend(w));
      RunTwo(cfg, w, SendRow, CheckRow);
      RunAppend(cfg, w, [SendRow, CheckRow], Sweep(n - 1));
      StepInv(cfg, w, SendRow);
      StepInv(cfg, DoSend(w), CheckRow);
      SweepOne(cfg, w);
      SweepTo(cfg, w1, n - 1);
    }
  }

  /** The sweep reaches a buried row and resolves it on its own receipt. */
  lemma ResolveBuried(cfg: Config, w: World, i: nat)
    requires Inv(cfg, w) && w.session.Recovering? && !w.session.sent && w.session.next == i < |w.session.rows|
    requires InFlight(w.session.rows[i]) && i < |w.chain.mined|
    requires w.session.rows[i].txHash == Some(w.chain.mined[i].tx.hash)
    requires cfg.confirmations + w.chain.mined[i].block <= w.session.latest + 1
    ensures !InFlight(DoCommit(DoCheck(cfg, DoSend(w))).rows[i])
  {
    var r := w.session.rows[i];
    assert RowOk(cfg, w.chain.sent, w.chain.mined, r, i);
    assert ReceiptAt(w.chain.mined, r.txHash.value).Some?;
    ReceiptIsOwn(cfg, w.chain, r, i);
  }

  /** Open a session, sweep through row `i`, commit. */
  function RecoverThrough(i: nat): seq<Step> {
    [BeginRecover] + (Sweep(i) + [SendRow, CheckRow] + [Commit])
  }

  lemma RunRecoverThrough(cfg: Config, w: World, i: nat)
    ensures Run(cfg, w, RecoverThrough(i)) ==
            DoCommit(DoCheck(cfg, DoSend(Run(cfg, DoBeginRecover(w), Sweep(i)))))
  {
    hide DoBeginRecover, DoSend, DoCheck, DoCommit, Sweep, MineBlock;
    var w2 := DoBeginRecover(w);
    var w3 := Run(cfg, w2, Sweep(i));
    var tail := Sweep(i) + [SendRow, CheckRow] + [Commit];
    assert RecoverThrough(i)[1..] == tail;
    RunAppend(cfg, w2, Sweep(i) + [SendRow, CheckRow], [Commit]);
    RunAppend(cfg, w2, Sweep(i), [SendRow, CheckRow]);
    RunTwo(cfg, w3, SendRow, CheckRow);
    var w4 := DoCheck(cfg, DoSend(w3));
    assert Run(cfg, w4, [Commit]) == Run(cfg, DoCommit(w4), []);
  }

  lemma RecoveryWorks(cfg: Config, w: World, i: nat)
    requires Inv(cfg, w) && Distinct(cfg.devWallets) && w.session.Closed? && Buried(cfg, w, i) && InFlight(w.rows[i])
    ensures i < |Run(cfg, w, RecoverThrough(i)).rows|
    ensures !InFlight(Run(cfg, w, RecoverThrough(i)).rows[i])
  {
    hide Inv;
    RunRecoverThrough(cfg, w, i);
    BeginRecoverInv(cfg, w);
    SweepTo(cfg, DoBeginRecover(w), i);
    ResolveBuried(cfg, Run(cfg, DoBeginRecover(w), Sweep(i)), i);
  }

  /** A row that stored the mined hash: bury it deep enough, and one recovery pass resolves it. */
  lemma RecoveryReachable(cfg: Config, w: World, i: nat) returns (steps: seq<Step>)
    requires Inv(cfg, w) && Distinct(cfg.devWallets) && w.session.Closed?
    requires i < |w.rows| && InFlight(w.rows[i]) && i < |w.chain.mined|
    requires w.rows[i].txHash == Some(w.chain.mined[i].tx.hash)
    ensures i < |Run(cfg, w, steps).rows| && !InFlight(Run(cfg, w, steps).rows[i])
  {
    hide Inv;
    var dig := Repeat(Mine, cfg.confirmations + w.chain.mined[i].block);
    MineOn(cfg, w, cfg.confirmations + w.chain.mined[i].block);
    var w1 := Run(cfg, w, dig);
    RecoveryWorks(cfg, w1, i);
    RunAppend(cfg, w, dig, RecoverThrough(i));
    steps := dig + RecoverThrough(i);
  }

  /**
   In a reachable state with no session open, a row in flight whose nonce has been consumed
   can still be resolved if and only if the hash it stored is the hash that was mined.
   */
  lemma ResolvableIff(cfg: Config, w0: World, before: seq<Step>, i: nat)
    requires Initial(cfg, w0) && Distinct(cfg.devWallets)
    requires
      var w := Run(cfg, w0, before);
      w.session.Closed? && i < |w.rows| && InFlight(w.rows[i]) && i < |w.chain.mined|
    ensures
      var w := Run(cfg, w0, before);
      (exists steps :: i < |Run(cfg, w, steps).rows| && !InFlight(Run(cfg, w, steps).rows[i]))
      <==> w.rows[i].txHash == Some(w.chain.mined[i].tx.hash)
  {
    InitialInv(cfg, w0);
    RunInv(cfg, w0, before);
    var w := Run(cfg, w0, before);
    if w.rows[i].txHash == Some(w.chain.mined[i].tx.hash) {
      var steps := RecoveryReachable(cfg, w, i);
    } else {
      forall steps ensures i < |Run(cfg, w, steps).rows| ==> InFlight(Run(cfg, w, steps).rows[i]) {
        StuckForever(cfg, w, i, steps);
      }
    }
  }

  // ---- and it happens ------------------------------------------------------------------------------

  const LONE := Config([Some(7)], [], 0, 1, 0)

  const FRESH := World(
    Chain([], map[], [], 0, 0, 1, 1, map[], map[], 0, false, false, {}), [], [100], [], Closed)

  /** One provider is owed one unit; the commit after its broadcast is lost, and it mines anyway. */
  const LOST_COMMIT :=
    ([BeginBatch(true, true), ReserveNonce] + [RecordBatch, Commit]) + ([BeginRecover, SendRow] + [Crash, Mine])

  lemma RunFour(cfg: Config, w: World, a: Step, b: Step, c: Step, d: Step)
    ensures Run(cfg, w, [a, b] + [c, d]) == Next(cfg, Next(cfg, Next(cfg, Next(cfg, w, a), b), c), d)
  {
    RunAppend(cfg, w, [a, b], [c, d]);
    RunTwo(cfg, w, a, b);
    RunTwo(cfg, Next(cfg, Next(cfg, w, a), b), c, d);
  }

  const UNIT_ROW := Row(Pending, 0, SettleBatch([Payee(7, 1)]), Cycle, None, [Leg(0, 1)])

  const UNIT_TX := Tx(1, 0, SettleBatch([Payee(7, 1)]))

  /** The world after the crash: the row is pending without a hash, its broadcast is queued. */
  const CRASHED := FRESH.(rows := [UNIT_ROW],
    chain := FRESH.chain.(queue := [Coordinator(UNIT_TX)], sent := map[1 := UNIT_TX], seqNo := 1))

  lemma SendsOne()
    ensures DoSend(DoBeginRecover(FRESH.(rows := [UNIT_ROW]))).(session := Closed) == CRASHED
  {
  }

  lemma LostCommitSteps(cfg: Config, w: World)
    ensures
      var recorded := DoCommit(DoRecordBatch(cfg, DoReserveNonce(DoBeginBatch(cfg, w, true, true))));
      var crashed := DoSend(DoBeginRecover(recorded)).(session := Closed);
      Run(cfg, w, LOST_COMMIT) == crashed.(chain := MineBlock(crashed.chain))
  {
    hide Run, DoBeginRecover, DoSend, DoBeginBatch, DoReserveNonce, DoRecordBatch, DoCommit, MineBlock;
    var first4 := [BeginBatch(true, true), ReserveNonce] + [RecordBatch, Commit];
    var last4 := [BeginRecover, SendRow] + [Crash, Mine];
    RunAppend(cfg, w, first4, last4);
    RunFour(cfg, w, BeginBatch(true, true), ReserveNonce, RecordBatch, Commit);
    RunFour(cfg, Run(cfg, w, first4), BeginRecover, SendRow, Crash, Mine);
  }

  lemma LostCommitRun()
    ensures Run(LONE, FRESH, LOST_COMMIT) == CRASHED.(chain := MineBlock(CRASHED.chain))
  {
    hide Run, DoBeginRecover, DoSend, DoBeginBatch, DoReserveNonce, DoRecordBatch, DoCommit, MineBlock;
    LostCommitSteps(LONE, FRESH);
    RecordsOne(UNIT_ROW);
    SendsOne();
  }

  /** A crash right after a broadcast reaches the wedged state: the row was paid and stays pending. */
  lemma WedgeReachable()
    ensures Initial(LONE, FRESH) && Distinct(LONE.devWallets) && Distinct(LONE.providerWallets)
    ensures
      var w := Run(LONE, FRESH, LOST_COMMIT);
      && Stuck(w, 0) && w.session.Closed? && w.rows[0].txHash.None?
      && Get(w.chain.earnings, 7) == 1
      && forall steps :: Stuck(Run(LONE, w, steps), 0)
  {
    hide Inv, MineBlock, Next, Run;
    LostCommitRun();
    MinesOne(CRASHED, UNIT_TX);
    var w := Run(LONE, FRESH, LOST_COMMIT);
    InitialInv(LONE, FRESH);
    RunInv(LONE, FRESH, LOST_COMMIT);
    forall steps ensures Stuck(Run(LONE, w, steps), 0) { StuckForever(LONE, w, 0, steps); }
  }

  lemma RecordsOne(row: Row)
    requires row == Row(Pending, 0, SettleBatch([Payee(7, 1)]), Cycle, None, [Leg(0, 1)])
    ensures DoCommit(DoRecordBatch(LONE, DoReserveNonce(DoBeginBatch(LONE, FRESH, true, true)))) ==
      FRESH.(rows := [row])
  {
    assert PlanLegs(LONE, [100], [], 1) == [Leg(0, 1)];
    assert PayeesOf(LONE, [Leg(0, 1)]) == [Payee(7, 1)];
    assert BatchRows(LONE, [Leg(0, 1)], 0, 1) == [row];
  }

  lemma MinesOne(w: World, tx: Tx)
    requires tx == Tx(1, 0, SettleBatch([Payee(7, 1)]))
    requires w.chain == Chain([Coordinator(tx)], map[1 := tx], [], 0, 0, 1, 1, map[], map[], 1, false, false, {})
    ensures MineBlock(w.chain).mined == [Mined(tx, true, false, 1)]
    ensures Get(MineBlock(w.chain).earnings, 7) == 1
  {
    assert w.chain.queue == [Coordinator(tx)] && w.chain.queue[1..] == [];
    assert Txs([]) == [] && Outsiders([]) == [];
    assert Txs(w.chain.queue) == [tx] && Outsiders(w.chain.queue) == [];
    assert ByNonce([tx]) == [tx];
    assert Find([tx], 0) == 0 && [tx][..0] + [tx][1..] == [];
    assert Ready([tx], 0) == [tx] + Ready([], 1) && Waiting([tx], 0) == Waiting([], 1) == [];
    var c1 := w.chain.(height := 1, queue := []);
    assert ExecuteAll(c1, [tx], 1) == ExecuteAll(Execute(c1, tx, 1), [], 1);
    assert Total([Payee(7, 1)]) == 1;
    CreditPays(map[], [Payee(7, 1)], 7);
    assert Pay([Payee(7, 1)], 7) == 1;
  }
}
