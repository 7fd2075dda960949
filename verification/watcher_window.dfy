/** When applied events stay on the canonical chain: exactly when the window covers the confirmation depth. */
module WatcherWindow {
  import opened Common
  import opened Ledger
  import opened Watcher
  import opened WatcherMirror
  import opened WatcherTheorems
  import opened WatcherFinality

  /** `n` empty blocks with consecutive hashes. */
  function Empties(n: nat, hash: Hash): seq<Block> { seq(n, i requires 0 <= i < n => Block(hash + i, [])) }

  lemma {:induction false} AllSeen(table: seq<Event>, found: seq<Event>)
    requires forall x :: x in found ==> HasKey(table, KeyOf(x.log))
    ensures Unseen(table, found) == []
  {
    if found != [] {
      assert found[0] in found;
      AllSeen(table, found[1..]);
    }
  }

  /** Every log of the chain has the given key. */
  ghost predicate OnlyKey(chain: seq<Block>, k: Key) {
    forall n, i :: 0 <= n < |chain| && 0 <= i < |chain[n].logs| ==> KeyOf(chain[n].logs[i]) == k
  }

  lemma FindsOnlyKey(chain: seq<Block>, from: nat, e: Event)
    requires OnlyKey(chain, KeyOf(e.log))
    ensures Unseen([e], EventsFrom(chain, from)) == []
  {
    var found := EventsFrom(chain, from);
    EventsFromIs(chain, from);
    forall x | x in found ensures HasKey([e], KeyOf(x.log)) {
      var i :| 0 <= i < |chain[x.block].logs| && chain[x.block].logs[i] == x.log;
      assert KeyOf([e][0].log) == KeyOf(x.log);
    }
    AllSeen([e], found);
  }

  lemma KeepsRow(cfg: Config, chain: seq<Block>, db: Db, e: Event)
    requires chain != [] && db.events == [e]
    requires Canonical(chain, e) || e.block < WindowStart(cfg, CursorAt(cfg, chain, db))
    ensures Dropped(cfg, chain, db) == Scan([e], {}, db.ledger)
  {
    hide CursorAt;
    var start := WindowStart(cfg, CursorAt(cfg, chain, db));
    assert [e][1..] == [] && Recent([], start) == [];
    assert Recent([e], start) == if e.block >= start then [e] else [];
    assert DropOrphans(cfg, chain, Scan([e], {}, db.ledger), []) == Scan([e], {}, db.ledger);
  }

  /** A tick over one row that it keeps, on a chain with nothing new to find. */
  lemma LoneRow(cfg: Config, chain: seq<Block>, db: Db, e: Event)
    requires chain != [] && db.events == [e] && OnlyKey(chain, KeyOf(e.log))
    requires Canonical(chain, e) || e.block < WindowStart(cfg, CursorAt(cfg, chain, db))
    ensures
      var last, latest := CursorAt(cfg, chain, db), |chain| - 1;
      && DoTick(cfg, chain, db).events == [if Due(cfg, latest, e) then Applied(e) else e]
      && DoTick(cfg, chain, db).cursor == Some(if FromBlock(cfg, last) <= latest then latest else last)
  {
    hide Due, ApplyDue, EventsFrom, Dropped, CursorAt;
    KeepsRow(cfg, chain, db, e);
    KeepNothing([e]);
    FindsOnlyKey(chain, FromBlock(cfg, CursorAt(cfg, chain, db)), e);
    assert [e] + [] == [e];
    assert Ingested(cfg, chain, db) == [e];
    FirstDueOne(cfg, |chain| - 1, e, db.ledger);
  }

  // ---- a run that applies an orphan ----------------------------------------------------------------

  const LOG := Log(Deposited, 1, 0, 7, 50)

  /** A chain of empty blocks up to where the watcher starts. */
  function Genesis(cfg: Config): World {
    World(Empties(cfg.startBlock + 1, 0), map n: nat | 0 <= n <= cfg.startBlock :: n := (n, []), Db(None, [], []))
  }

  lemma GenesisInitial(cfg: Config)
    ensures Initial(Genesis(cfg))
  {}

  /** Every hash remembered is below a bound, so blocks hashed from there can be mined. */
  ghost predicate HashesBelow(w: World, bound: Hash) { forall h :: h in w.known ==> h < bound }

  /** Mining blocks, at most the first of which has a log, under new hashes. */
  lemma Mines(cfg: Config, w: World, keep: nat, blocks: seq<Block>, base: Hash)
    requires 1 <= keep <= |w.chain| && HashesBelow(w, base)
    requires forall i :: 0 <= i < |blocks| ==> blocks[i].hash == base + i
    requires DistinctLogs(w.chain[..keep] + blocks)
    ensures
      var w' := Next(cfg, w, Reorg(keep, blocks));
      w'.chain == w.chain[..keep] + blocks && w'.db == w.db && HashesBelow(w', base + |blocks|)
  {
    assert Minable(w, keep, blocks);
    RememberedBelow(w.known, keep, blocks, base);
  }

  lemma {:induction false} RememberedBelow(known: map<Hash, (nat, seq<Log>)>, at: nat, blocks: seq<Block>, base: Hash)
    requires forall h :: h in known ==> h < base
    requires forall i :: 0 <= i < |blocks| ==> blocks[i].hash == base + i
    ensures forall h :: h in Remember(known, at, blocks) ==> h < base + |blocks|
    decreases |blocks|
  {
    if blocks != [] { RememberedBelow(known[blocks[0].hash := (at, blocks[0].logs)], at + 1, blocks[1..], base + 1); }
  }

  /** The deposit is mined just past the start and stored, unapplied. */
  lemma Seen(cfg: Config, w0: World) returns (steps: seq<Step>, w: World, e: Event)
    requires cfg.confirmations > cfg.window + 1 && w0 == Genesis(cfg)
    ensures AllShallow(cfg, w0, steps) && w == Run(cfg, w0, steps)
    ensures
      var top := cfg.startBlock + 1;
      && e == Event(LOG, top, top, false, false)
      && w.chain == Empties(top, 0) + [Block(top, [LOG])]
      && w.db == Db(Some(top), [e], []) && HashesBelow(w, top + 1)
  {
    hide DoTick, Minable, Remember, Run, AllShallow;
    var top := cfg.startBlock + 1;
    var b := Block(top, [LOG]);
    e := Event(LOG, top, top, false, false);
    assert w0.chain[..top] == w0.chain;
    Mines(cfg, w0, top, [b], top);
    var w1 := Next(cfg, w0, Reorg(top, [b]));
    FindsOne(cfg, w1.chain, top, LOG);
    w := Next(cfg, w1, Tick);
    steps := [] + [Reorg(top, [b])] + [Tick];
    RunNothing(cfg, w0);
    RunSnoc(cfg, w0, [], Reorg(top, [b]));
    RunSnoc(cfg, w0, [] + [Reorg(top, [b])], Tick);
  }

  /** The window passes the row while it is too shallow to apply. */
  lemma Passed(cfg: Config, w0: World, past: seq<Step>, w: World, e: Event) returns (steps: seq<Step>, w': World)
    requires cfg.confirmations > cfg.window + 1 && AllShallow(cfg, w0, past) && w == Run(cfg, w0, past)
    requires
      var top := cfg.startBlock + 1;
      && e == Event(LOG, top, top, false, false) && w.chain == Empties(top, 0) + [Block(top, [LOG])]
      && w.db == Db(Some(top), [e], []) && HashesBelow(w, top + 1)
    ensures AllShallow(cfg, w0, steps) && w' == Run(cfg, w0, steps)
    ensures
      var top := cfg.startBlock + 1;
      && w'.chain == w.chain + Empties(cfg.window, top + 1)
      && w'.db.events == [e] && w'.db.cursor == Some(top + cfg.window) && HashesBelow(w', top + 1 + cfg.window)
  {
    hide DoTick, Minable, Remember, Run, AllShallow;
    var top := cfg.startBlock + 1;
    var more := Empties(cfg.window, top + 1);
    assert w.chain[..top + 1] == w.chain;
    Mines(cfg, w, top + 1, more, top + 1);
    var w1 := Next(cfg, w, Reorg(top + 1, more));
    assert w1.chain[top] == Block(top, [LOG]);
    LoneRow(cfg, w1.chain, w1.db, e);
    w' := Next(cfg, w1, Tick);
    steps := past + [Reorg(top + 1, more)] + [Tick];
    RunSnoc(cfg, w0, past, Reorg(top + 1, more));
    RunSnoc(cfg, w0, past + [Reorg(top + 1, more)], Tick);
  }

  /** A shallow reorg replaces its block unseen, and the row is applied when it is old enough. */
  lemma Orphaned(cfg: Config, w0: World, past: seq<Step>, w: World, e: Event) returns (steps: seq<Step>, w': World)
    requires cfg.confirmations > cfg.window + 1 && AllShallow(cfg, w0, past) && w == Run(cfg, w0, past)
    requires
      var top := cfg.startBlock + 1;
      && e == Event(LOG, top, top, false, false) && |w.chain| == top + 1 + cfg.window
      && w.chain[..top] == Empties(top, 0)
      && w.db.events == [e] && w.db.cursor == Some(top + cfg.window) && HashesBelow(w, top + 1 + cfg.window)
    ensures AllShallow(cfg, w0, steps) && w' == Run(cfg, w0, steps)
    ensures w'.db.events == [Applied(e)] && !Canonical(w'.chain, Applied(e))
  {
    hide DoTick, Minable, Remember, Run, AllShallow;
    var top := cfg.startBlock + 1;
    var blocks := Empties(cfg.confirmations, top + 1 + cfg.window);
    Mines(cfg, w, top, blocks, top + 1 + cfg.window);
    var w1 := Next(cfg, w, Reorg(top, blocks));
    assert w1.chain[top] == blocks[0];
    LoneRow(cfg, w1.chain, w1.db, e);
    w' := Next(cfg, w1, Tick);
    steps := past + [Reorg(top, blocks)] + [Tick];
    RunSnoc(cfg, w0, past, Reorg(top, blocks));
    RunSnoc(cfg, w0, past + [Reorg(top, blocks)], Tick);
  }

  /** Any configuration whose window is too narrow can apply an effect that is no longer on the chain. */
  lemma NarrowWindow(cfg: Config) returns (w0: World, steps: seq<Step>)
    requires cfg.confirmations > cfg.window + 1
    ensures Initial(w0) && AllShallow(cfg, w0, steps) && !AppliedCanonical(Run(cfg, w0, steps))
  {
    hide Run, AllShallow, Initial, HashesBelow;
    w0 := Genesis(cfg);
    GenesisInitial(cfg);
    var s1, w1, e := Seen(cfg, w0);
    var s2, w2 := Passed(cfg, w0, s1, w1, e);
    assert w2.chain[..cfg.startBlock + 1] == Empties(cfg.startBlock + 1, 0);
    var w3;
    steps, w3 := Orphaned(cfg, w0, s2, w2, e);
    assert w3.db.events[0] == Applied(e);
  }

  ghost predicate AlwaysCanonical(cfg: Config) {
    forall w, steps :: Initial(w) && AllShallow(cfg, w, steps) ==> AppliedCanonical(Run(cfg, w, steps))
  }

  /** Under shallow reorgs applied events stay on the chain if and only if the window covers the confirmation depth. */
  lemma StaysCanonicalIff(cfg: Config)
    ensures AlwaysCanonical(cfg) <==> cfg.confirmations <= cfg.window + 1
  {
    hide Run, AllShallow, Initial, AppliedCanonical;
    if cfg.confirmations <= cfg.window + 1 {
      forall w, steps | Initial(w) && AllShallow(cfg, w, steps) ensures AppliedCanonical(Run(cfg, w, steps)) {
        StaysCanonical(cfg, w, steps);
      }
    } else {
      var w0, steps := NarrowWindow(cfg);
    }
  }
}
