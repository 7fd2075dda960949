/**
 The chain watcher: one tick re-verifies the block hashes of a trailing window, drops and
 reverses orphaned events, ingests logs from the window's start to the head, and applies the
 effects of events buried deep enough. The chain is a sequence of hashed blocks that grows
 and reorganises between ticks.
 */
module Watcher {
  import opened Common
  import opened Money
  import opened Ledger

  type Hash = nat
  type Wallet = nat

  datatype Name = Deposited | Withdrawn | Debited | Settled | Slashed

  datatype Log = Log(name: Name, tx: nat, index: nat, wallet: Wallet, amount: nat)

  datatype Block = Block(hash: Hash, logs: seq<Log>)

  datatype Event = Event(log: Log, block: nat, hash: Hash, confirmed: bool, processed: bool)

  datatype Key = Key(tx: nat, index: nat)

  /** `owners` is the fixed map from wallets to developers. */
  datatype Config = Config(confirmations: nat, window: nat, startBlock: nat, owners: map<Wallet, nat>)

  datatype Db = Db(cursor: Option<nat>, events: seq<Event>, ledger: seq<Transaction>)

  /** A session mid-scan: rows the database still shows, and those marked deleted but not flushed. */
  datatype Scan = Scan(table: seq<Event>, doomed: set<Key>, ledger: seq<Transaction>)

  datatype Step = Tick | Reorg(keep: nat, blocks: seq<Block>)

  /** `known` remembers every block ever mined by its hash. */
  datatype World = World(chain: seq<Block>, known: map<Hash, (nat, seq<Log>)>, db: Db)

  function KeyOf(l: Log): Key { Key(l.tx, l.index) }

  predicate Effectful(l: Log) { l.name == Deposited || l.name == Withdrawn }

  // ---- effects on the ledger ---------------------------------------------------------------

  function EffectOf(cfg: Config, l: Log): Option<Transaction> {
    if !Effectful(l) || l.wallet !in cfg.owners then None
    else
      var dev := Some(cfg.owners[l.wallet]);
      var ticks := FromUnits(l.amount);
      if l.name == Deposited
      then Some(Transfer(ChainDeposit, None, Protocol, None, Developer, dev, ticks))
      else Some(Transfer(ChainWithdraw, None, Developer, dev, Protocol, None, ticks))
  }

  function ReversalOf(cfg: Config, l: Log): Option<Transaction> {
    if !Effectful(l) || l.wallet !in cfg.owners then None
    else
      var dev := Some(cfg.owners[l.wallet]);
      var ticks := FromUnits(l.amount);
      if l.name == Deposited
      then Some(Transfer(ReorgReverse, None, Developer, dev, Protocol, None, ticks))
      else Some(Transfer(ReorgReverse, None, Protocol, None, Developer, dev, ticks))
  }

  // ---- dropping orphans ----------------------------------------------------------------------

  predicate Canonical(chain: seq<Block>, e: Event) {
    e.block < |chain| && chain[e.block].hash == e.hash
  }

  /** The rows left once marked deletions are flushed. */
  function Keep(table: seq<Event>, doomed: set<Key>): seq<Event> {
    if table == [] then []
    else (if KeyOf(table[0].log) in doomed then [] else [table[0]]) + Keep(table[1..], doomed)
  }

  function Recent(table: seq<Event>, start: nat): seq<Event> {
    if table == [] then []
    else (if table[0].block >= start then [table[0]] else []) + Recent(table[1..], start)
  }

  /** Reverse an applied effect (posting flushes the session), then mark the row deleted. */
  function DropOne(cfg: Config, s: Scan, e: Event): Scan {
    var t := if e.processed then ReversalOf(cfg, e.log) else None;
    var s1 := if t.Some? then Scan(Keep(s.table, s.doomed), {}, s.ledger + [t.value]) else s;
    s1.(doomed := s1.doomed + {KeyOf(e.log)})
  }

  function DropOrphans(cfg: Config, chain: seq<Block>, s: Scan, evs: seq<Event>): Scan
    decreases |evs|
  {
    if evs == [] then s
    else DropOrphans(cfg, chain, if Canonical(chain, evs[0]) then s else DropOne(cfg, s, evs[0]), evs[1..])
  }

  // ---- ingesting --------------------------------------------------------------------------------

  function WindowStart(cfg: Config, last: nat): nat { Max(1, last - cfg.window + 1) }

  function BlockEvents(b: Block, number: nat): seq<Event> {
    seq(|b.logs|, i requires 0 <= i < |b.logs| => Event(b.logs[i], number, b.hash, false, false))
  }

  function EventsFrom(chain: seq<Block>, from: nat): seq<Event>
    decreases |chain| - from
  {
    if from >= |chain| then [] else BlockEvents(chain[from], from) + EventsFrom(chain, from + 1)
  }

  predicate HasKey(table: seq<Event>, k: Key) {
    exists i :: 0 <= i < |table| && KeyOf(table[i].log) == k
  }

  /** The logs found that the database does not show yet. */
  function Unseen(table: seq<Event>, found: seq<Event>): seq<Event> {
    if found == [] then []
    else (if HasKey(table, KeyOf(found[0].log)) then [] else [found[0]]) + Unseen(table, found[1..])
  }

  // ---- applying ------------------------------------------------------------------------------------

  predicate Due(cfg: Config, latest: nat, e: Event) {
    !e.processed && latest as int - e.block as int + 1 >= cfg.confirmations as int
  }

  predicate Before(a: Event, b: Event) {
    a.block < b.block || (a.block == b.block && a.log.index < b.log.index)
  }

  /** The earliest due event by block and log index; the length when none is due. */
  function FirstDue(cfg: Config, latest: nat, table: seq<Event>): (i: nat)
    ensures i <= |table|
    ensures i < |table| ==> Due(cfg, latest, table[i])
    ensures forall k :: i < |table| && 0 <= k < |table| && Due(cfg, latest, table[k]) ==>
      || table[i].block < table[k].block
      || (table[i].block == table[k].block && table[i].log.index <= table[k].log.index)
    ensures i == |table| ==> forall k :: 0 <= k < |table| ==> !Due(cfg, latest, table[k])
  {
    if table == [] then 0
    else
      var n := |table| - 1;
      var r := FirstDue(cfg, latest, table[..n]);
      if r == n then (if Due(cfg, latest, table[n]) then n else n + 1)
      else if Due(cfg, latest, table[n]) && Before(table[n], table[r]) then n
      else r
  }

  function CountDue(cfg: Config, latest: nat, table: seq<Event>): nat {
    if table == [] then 0
    else CountDue(cfg, latest, table[..|table| - 1]) + if Due(cfg, latest, table[|table| - 1]) then 1 else 0
  }

  lemma {:induction false} CountDueUpdate(cfg: Config, latest: nat, table: seq<Event>, i: nat, e: Event)
    requires i < |table| && Due(cfg, latest, table[i]) && !Due(cfg, latest, e)
    ensures CountDue(cfg, latest, table[i := e]) == CountDue(cfg, latest, table) - 1
    decreases |table|
  {
    var n := |table| - 1;
    if i < n {
      assert table[i := e][..n] == table[..n][i := e];
      CountDueUpdate(cfg, latest, table[..n], i, e);
    } else {
      assert table[i := e][..n] == table[..n];
    }
  }

  function Applied(e: Event): Event { e.(confirmed := true, processed := true) }

  function ApplyDue(cfg: Config, latest: nat, table: seq<Event>,
      ledger: seq<Transaction>): (seq<Event>, seq<Transaction>)
    decreases CountDue(cfg, latest, table)
  {
    var i := FirstDue(cfg, latest, table);
    if i == |table| then (table, ledger)
    else
      var t := EffectOf(cfg, table[i].log);
      CountDueUpdate(cfg, latest, table, i, Applied(table[i]));
      ApplyDue(cfg, latest, table[i := Applied(table[i])], ledger + if t.Some? then [t.value] else [])
  }

  // ---- one tick -----------------------------------------------------------------------------------

  /** Where the cursor stands: a new one starts at the deploy block, or just behind the head. */
  function CursorAt(cfg: Config, chain: seq<Block>, db: Db): nat
    requires chain != []
  {
    if db.cursor.Some? then db.cursor.value
    else if cfg.startBlock > 0 then cfg.startBlock
    else Max(0, |chain| - 2)
  }

  function FromBlock(cfg: Config, last: nat): nat { Min(last + 1, WindowStart(cfg, last)) }

  /** The session after the reorg check. */
  function Dropped(cfg: Config, chain: seq<Block>, db: Db): Scan
    requires chain != []
  {
    var start := WindowStart(cfg, CursorAt(cfg, chain, db));
    DropOrphans(cfg, chain, Scan(db.events, {}, db.ledger), Recent(db.events, start))
  }

  /** The table after ingesting and flushing. */
  function Ingested(cfg: Config, chain: seq<Block>, db: Db): seq<Event>
    requires chain != []
  {
    var s := Dropped(cfg, chain, db);
    Keep(s.table, s.doomed) + Unseen(s.table, EventsFrom(chain, FromBlock(cfg, CursorAt(cfg, chain, db))))
  }

  function DoTick(cfg: Config, chain: seq<Block>, db: Db): Db
    requires chain != []
  {
    var latest := |chain| - 1;
    var last := CursorAt(cfg, chain, db);
    var (table, ledger) := ApplyDue(cfg, latest, Ingested(cfg, chain, db), Dropped(cfg, chain, db).ledger);
    Db(Some(if FromBlock(cfg, last) <= latest then latest else last), table, ledger)
  }

  // ---- the world -------------------------------------------------------------------------------------

  ghost predicate Stored(table: seq<Event>, e: Event) {
    exists i :: 0 <= i < |table| && table[i].log == e.log && table[i].block == e.block && table[i].hash == e.hash
  }

  /** No two logs of a chain share a transaction hash and log index. */
  ghost predicate DistinctLogs(chain: seq<Block>) {
    forall a, b, i, j ::
      (&& 0 <= a < |chain| && 0 <= b < |chain| && 0 <= i < |chain[a].logs| && 0 <= j < |chain[b].logs|
       && KeyOf(chain[a].logs[i]) == KeyOf(chain[b].logs[j])) ==> a == b && i == j
  }

  /** A reorg keeps a prefix and mines blocks under hashes never used before. */
  ghost predicate Minable(w: World, keep: nat, blocks: seq<Block>) {
    && 1 <= keep <= |w.chain|
    && DistinctLogs(w.chain[..keep] + blocks)
    && (forall i :: 0 <= i < |blocks| ==> blocks[i].hash !in w.known)
    && (forall i, j :: 0 <= i < j < |blocks| ==> blocks[i].hash != blocks[j].hash)
  }

  function Remember(known: map<Hash, (nat, seq<Log>)>, base: nat, blocks: seq<Block>): map<Hash, (nat, seq<Log>)>
    decreases |blocks|
  {
    if blocks == [] then known
    else Remember(known[blocks[0].hash := (base, blocks[0].logs)], base + 1, blocks[1..])
  }

  ghost function Next(cfg: Config, w: World, s: Step): World {
    match s
    case Tick => if w.chain == [] then w else w.(db := DoTick(cfg, w.chain, w.db))
    case Reorg(keep, blocks) =>
      if Minable(w, keep, blocks)
      then w.(chain := w.chain[..keep] + blocks, known := Remember(w.known, keep, blocks))
      else w
  }

  ghost function Run(cfg: Config, w: World, steps: seq<Step>): World
    decreases |steps|
  {
    if steps == [] then w else Run(cfg, Next(cfg, w, steps[0]), steps[1..])
  }

  /** Every block of the chain is known under its hash. */
  ghost predicate ChainKnown(w: World) {
    && w.chain != [] && DistinctLogs(w.chain)
    && forall n :: 0 <= n < |w.chain| ==> w.chain[n].hash in w.known && w.known[w.chain[n].hash] == (n, w.chain[n].logs)
  }

  /** A watcher that has never run, in front of any chain. */
  ghost predicate Initial(w: World) { ChainKnown(w) && w.db == Db(None, [], []) }
}
