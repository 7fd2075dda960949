/**
 Where a watcher begins and what it then never skips: the first tick stores exactly the logs
 from the deploy block's window on, and later ticks miss none of them unless a dropped row
 hides it. And when a stored event is applied.
 */
module WatcherStart {
  import opened Common
  import opened Money
  import opened Ledger
  import opened Watcher
  import opened WatcherMirror
  import opened WatcherTheorems

  /** The lowest block read when the cursor stands at `s`. */
  function Lowest(s: nat, window: nat): nat {
    if window == 0 then s + 1 else if s < window then 1 else s - window + 1
  }

  /**
   The first tick on any chain stores a log if and only if its block is not below the deploy
   block's window, or, with no deploy block, the window of the block before the head.
   */
  lemma FirstTickIff(cfg: Config, w: World, f: Event)
    requires Initial(w) && OnChain(w.chain, f)
    ensures
      var s := if cfg.startBlock > 0 then cfg.startBlock else if |w.chain| >= 2 then |w.chain| - 2 else 0;
      Stored(Next(cfg, w, Tick).db.events, f) <==> f.block >= Lowest(s, cfg.window)
  {
    hide Stored, Next, Shadowed, Inv, Initial;
    InitialInv(cfg, w);
    StartsSound(cfg, w);
    if f.block >= ScansFrom(cfg, w) {
      StartsUnshadowed(cfg, w, KeyOf(f.log));
      TickCoverage(cfg, w, f);
    } else {
      FirstFloor(cfg, w, f);
    }
  }

  lemma StartsUnshadowed(cfg: Config, w: World, k: Key)
    requires Initial(w)
    ensures w.chain != [] && w.db.cursor.None? && !Shadowed(cfg, w, k)
  {}

  lemma FirstFloor(cfg: Config, w: World, f: Event)
    requires Initial(w) && f.block < ScansFrom(cfg, w)
    ensures w.db.cursor.None? && !Stored(Next(cfg, w, Tick).db.events, f)
  {
    hide ScansFrom;
    InitialInv(cfg, w);
    var events := DoTick(cfg, w.chain, w.db).events;
    forall i | 0 <= i < |events| ensures events[i].block >= ScansFrom(cfg, w) { TickFloor(cfg, w, i); }
  }

  lemma TickFloor(cfg: Config, w: World, i: nat)
    requires Inv(cfg, w) && w.db.events == [] && i < |DoTick(cfg, w.chain, w.db).events|
    ensures DoTick(cfg, w.chain, w.db).events[i].block >= ScansFrom(cfg, w)
  {
    TickOrigin(cfg, w.chain, w.db, i);
  }

  // ---- nothing is skipped -------------------------------------------------------------------------

  /** No tick of the run finds the key shadowed. */
  ghost predicate Unshadowed(cfg: Config, w: World, steps: seq<Step>, k: Key)
    decreases |steps|
  {
    steps != [] ==>
      && (steps[0].Tick? && w.chain != [] ==> !Shadowed(cfg, w, k))
      && Unshadowed(cfg, Next(cfg, w, steps[0]), steps[1..], k)
  }

  /** What lies between the deploy block's window and the next scan is stored. */
  ghost predicate Covered(cfg: Config, w: World, k: Key) {
    && w.chain != []
    && (w.db.cursor.None? || ScansFrom(cfg, w) == FromBlock(cfg, cfg.startBlock) || ScansFrom(cfg, w) <= |w.chain|)
    && (w.db.cursor.None? ==> ScansFrom(cfg, w) == FromBlock(cfg, cfg.startBlock))
    && forall f ::
      (&& OnChain(w.chain, f) && KeyOf(f.log) == k
       && FromBlock(cfg, cfg.startBlock) <= f.block < ScansFrom(cfg, w)) ==> Stored(w.db.events, f)
  }

  /** A canonical row below the scan stays stored. */
  lemma StaysStored(cfg: Config, w: World, f: Event)
    requires Inv(cfg, w) && Stored(w.db.events, f) && Canonical(w.chain, f)
    ensures Stored(Next(cfg, w, Tick).db.events, f)
  {
    hide Ingested, Dropped, Next, MirrorOk, EventsFrom, CursorAt, DistinctLogs;
    DroppedOk(cfg, w.chain, w.db);
    IngestedOk(cfg, w.chain, w.db);
    StoredAfter(cfg, w, f);
    var x := StoredRow(w.db.events, f);
    assert x in Ingested(cfg, w.chain, w.db) && SameLog(x, f);
  }

  lemma StoredRow(table: seq<Event>, f: Event) returns (x: Event)
    requires Stored(table, f)
    ensures x in table && SameLog(x, f)
  {
    var i :| 0 <= i < |table| && table[i].log == f.log && table[i].block == f.block && table[i].hash == f.hash;
    x := table[i];
  }

  lemma TickCovers(cfg: Config, w: World, k: Key, f: Event)
    requires Inv(cfg, w) && BelowSound(cfg, w) && Covered(cfg, w, k) && !Shadowed(cfg, w, k)
    requires OnChain(w.chain, f) && KeyOf(f.log) == k && FromBlock(cfg, cfg.startBlock) <= f.block
    ensures Stored(Next(cfg, w, Tick).db.events, f)
  {
    hide Inv, BelowSound, Shadowed, Next, ScansFrom;
    if ScansFrom(cfg, w) <= f.block { TickCoverage(cfg, w, f); } else { StaysStored(cfg, w, f); }
  }

  lemma TickCovered(cfg: Config, w: World, k: Key)
    requires Inv(cfg, w) && BelowSound(cfg, w) && Covered(cfg, w, k) && !Shadowed(cfg, w, k)
    ensures Covered(cfg, Next(cfg, w, Tick), k)
  {
    hide Inv, BelowSound, Shadowed, Stored, ApplyDue, Ingested, Dropped;
    var w' := Next(cfg, w, Tick);
    forall f | OnChain(w'.chain, f) && KeyOf(f.log) == k && FromBlock(cfg, cfg.startBlock) <= f.block
      ensures Stored(w'.db.events, f)
    {
      TickCovers(cfg, w, k, f);
    }
  }

  lemma ReorgCovered(cfg: Config, w: World, k: Key, keep: nat, blocks: seq<Block>)
    requires cfg.startBlock > 0 && Covered(cfg, w, k) && InWindow(cfg, w, Reorg(keep, blocks))
    ensures Covered(cfg, Next(cfg, w, Reorg(keep, blocks)), k)
  {
    hide Stored, Remember;
    var w' := Next(cfg, w, Reorg(keep, blocks));
    if Minable(w, keep, blocks) {
      forall f |
        && OnChain(w'.chain, f) && KeyOf(f.log) == k
        && FromBlock(cfg, cfg.startBlock) <= f.block < ScansFrom(cfg, w')
        ensures Stored(w'.db.events, f)
      {
        assert w'.chain[f.block] == w.chain[f.block];
        assert OnChain(w.chain, f);
      }
    }
  }

  lemma {:induction false} RunCovered(cfg: Config, w: World, steps: seq<Step>, k: Key)
    requires cfg.startBlock > 0 && Inv(cfg, w) && BelowSound(cfg, w) && Covered(cfg, w, k)
    requires AllInWindow(cfg, w, steps) && Unshadowed(cfg, w, steps, k)
    ensures
      var w' := Run(cfg, w, steps);
      Inv(cfg, w') && BelowSound(cfg, w') && Covered(cfg, w', k)
    decreases |steps|
  {
    hide Inv, BelowSound, InWindow, Shadowed, Next;
    if steps != [] {
      var s := steps[0];
      StepInv(cfg, w, s);
      StepSound(cfg, w, s);
      if s.Tick? { TickCovered(cfg, w, k); } else { ReorgCovered(cfg, w, k, s.keep, s.blocks); }
      RunCovered(cfg, Next(cfg, w, s), steps[1..], k);
    }
  }

  /**
   With a deploy block, in every run whose reorgs stay inside the window and whose ticks find
   the key unshadowed, a tick leaves every canonical log under it stored, from the deploy
   block's window on.
   */
  lemma NothingSkipped(cfg: Config, w0: World, steps: seq<Step>, f: Event)
    requires Initial(w0) && cfg.startBlock > 0 && AllInWindow(cfg, w0, steps)
    requires Unshadowed(cfg, w0, steps, KeyOf(f.log))
    requires
      var w := Run(cfg, w0, steps);
      w.chain != [] && OnChain(w.chain, f) && !Shadowed(cfg, w, KeyOf(f.log))
    requires f.block >= Lowest(cfg.startBlock, cfg.window)
    ensures Stored(Next(cfg, Run(cfg, w0, steps), Tick).db.events, f)
  {
    hide Inv, BelowSound, Unshadowed, AllInWindow, Shadowed, Next, Run;
    InitialInv(cfg, w0);
    assert BelowSound(cfg, w0) by { StartsSound(cfg, w0); }
    RunCovered(cfg, w0, steps, KeyOf(f.log));
    TickCovers(cfg, Run(cfg, w0, steps), KeyOf(f.log), f);
  }

  lemma StartsSound(cfg: Config, w: World)
    requires Initial(w)
    ensures BelowSound(cfg, w)
  {}

  // ---- when an event is applied -----------------------------------------------------------------------

  ghost predicate SameFlags(w: World) {
    forall i :: 0 <= i < |w.db.events| ==> w.db.events[i].confirmed == w.db.events[i].processed
  }

  lemma TickFlags(cfg: Config, w: World)
    requires Inv(cfg, w) && SameFlags(w)
    ensures SameFlags(Next(cfg, w, Tick))
  {
    TickOk(cfg, w.chain, w.db);
    IngestedOk(cfg, w.chain, w.db);
    DroppedOk(cfg, w.chain, w.db);
    EventsFromIs(w.chain, ScansFrom(cfg, w));
    var table, events := Ingested(cfg, w.chain, w.db), DoTick(cfg, w.chain, w.db).events;
    forall i | 0 <= i < |events| ensures events[i].confirmed == events[i].processed {
      assert table[i] in table;
      if table[i] in w.db.events { var k :| 0 <= k < |w.db.events| && w.db.events[k] == table[i]; }
    }
  }

  lemma {:induction false} RunFlags(cfg: Config, w: World, steps: seq<Step>)
    requires Inv(cfg, w) && SameFlags(w)
    ensures Inv(cfg, Run(cfg, w, steps)) && SameFlags(Run(cfg, w, steps))
    decreases |steps|
  {
    hide Inv;
    if steps != [] {
      StepInv(cfg, w, steps[0]);
      if steps[0].Tick? { TickFlags(cfg, w); }
      RunFlags(cfg, Next(cfg, w, steps[0]), steps[1..]);
    }
  }

  /**
   In every run, after a tick a stored event is applied if and only if it was before, or as
   many blocks as confirmations ask for stand from its own to the head.
   */
  lemma AppliedIff(cfg: Config, w0: World, steps: seq<Step>, i: nat)
    requires Initial(w0) && i < |Next(cfg, Run(cfg, w0, steps), Tick).db.events|
    ensures
      var w := Run(cfg, w0, steps);
      var e := Next(cfg, w, Tick).db.events[i];
      && e.confirmed == e.processed
      && (e.processed <==> |w.chain| - e.block >= cfg.confirmations || Applied(e) in w.db.events)
  {
    InitialInv(cfg, w0);
    RunFlags(cfg, w0, steps);
    var w := Run(cfg, w0, steps);
    TickFlags(cfg, w);
    TickOk(cfg, w.chain, w.db);
    IngestedOk(cfg, w.chain, w.db);
    DroppedOk(cfg, w.chain, w.db);
    EventsFromIs(w.chain, ScansFrom(cfg, w));
    var table := Ingested(cfg, w.chain, w.db);
    var x, e := table[i], Next(cfg, w, Tick).db.events[i];
    assert x in table;
    if x in w.db.events { var k :| 0 <= k < |w.db.events| && w.db.events[k] == x; }
    if Applied(e) in w.db.events {
      AppliedRow(cfg, w, x, e);
    }
  }

  lemma AppliedRow(cfg: Config, w: World, x: Event, e: Event)
    requires Inv(cfg, w) && x in Ingested(cfg, w.chain, w.db) && SameLog(x, e) && Applied(e) in w.db.events
    ensures x.processed
  {
    DroppedOk(cfg, w.chain, w.db);
    IngestedOk(cfg, w.chain, w.db);
    var y := Applied(e);
    var k :| 0 <= k < |w.db.events| && w.db.events[k] == y;
    if x in w.db.events {
      var j :| 0 <= j < |w.db.events| && w.db.events[j] == x;
      assert DistinctKeys(w.db.events);
    } else {
      EventsFromIs(w.chain, ScansFrom(cfg, w));
      KeepIs(Dropped(cfg, w.chain, w.db).table, Dropped(cfg, w.chain, w.db).doomed);
      assert false;
    }
  }

  /** A tick moves the cursor to the head once the head has reached the scan, and leaves it alone before. */
  lemma TickCursor(cfg: Config, w: World)
    requires w.chain != []
    ensures
      var head := |w.chain| - 1;
      var s := if w.db.cursor.Some? then w.db.cursor.value
               else if cfg.startBlock > 0 then cfg.startBlock else if head >= 1 then head - 1 else 0;
      Next(cfg, w, Tick).db.cursor == Some(if head >= Lowest(s, cfg.window) then head else s)
  {
    hide ApplyDue, Ingested, Dropped;
  }
}
