/** When an applied effect is final, and when a log is never seen. */
module WatcherFinality {
  import opened Common
  import opened Money
  import opened Ledger
  import opened Watcher
  import opened WatcherMirror
  import opened WatcherTheorems

  // ---- finality -----------------------------------------------------------------------------------

  /** The head never goes down, and a reorg replaces fewer than `confirmations` blocks. */
  ghost predicate Shallow(cfg: Config, w: World, s: Step) {
    s.Reorg? ==> |w.chain| <= s.keep + |s.blocks| && |w.chain| < s.keep + cfg.confirmations
  }

  ghost predicate AllShallow(cfg: Config, w: World, steps: seq<Step>)
    decreases |steps|
  {
    steps != [] ==> Shallow(cfg, w, steps[0]) && AllShallow(cfg, Next(cfg, w, steps[0]), steps[1..])
  }

  ghost predicate NoReversal(ledger: seq<Transaction>) {
    forall i :: 0 <= i < |ledger| ==> ledger[i].reason != ReorgReverse
  }

  /** An applied event is buried on the canonical chain, or lies below the window and is never looked at again. */
  ghost predicate EventSafe(cfg: Config, w: World, e: Event) {
    && e.block >= 1 && w.db.cursor.Some? && w.db.cursor.value < |w.chain|
    && (e.processed ==>
      || (Canonical(w.chain, e) && e.block + cfg.confirmations <= |w.chain|)
      || e.block < WindowStart(cfg, w.db.cursor.value))
  }

  ghost predicate SafeInv(cfg: Config, w: World) {
    NoReversal(w.db.ledger) && forall i :: 0 <= i < |w.db.events| ==> EventSafe(cfg, w, w.db.events[i])
  }

  lemma {:induction false} NothingReversed(cfg: Config, chain: seq<Block>, s: Scan, evs: seq<Event>)
    requires forall i :: 0 <= i < |evs| && evs[i].processed ==> Canonical(chain, evs[i])
    ensures DropOrphans(cfg, chain, s, evs).ledger == s.ledger
    decreases |evs|
  {
    if evs != [] {
      NothingReversed(cfg, chain, if Canonical(chain, evs[0]) then s else DropOne(cfg, s, evs[0]), evs[1..]);
    }
  }

  lemma {:induction false} ApplyReversesNothing(cfg: Config, latest: nat, table: seq<Event>, ledger: seq<Transaction>)
    requires NoReversal(ledger)
    ensures NoReversal(ApplyDue(cfg, latest, table, ledger).1)
    decreases CountDue(cfg, latest, table)
  {
    var i := FirstDue(cfg, latest, table);
    if i < |table| {
      var t := EffectOf(cfg, table[i].log);
      CountDueUpdate(cfg, latest, table, i, Applied(table[i]));
      ApplyReversesNothing(cfg, latest, table[i := Applied(table[i])], ledger + if t.Some? then [t.value] else []);
    }
  }

  lemma TickReversesNothing(cfg: Config, w: World)
    requires Inv(cfg, w) && SafeInv(cfg, w)
    ensures NoReversal(Next(cfg, w, Tick).db.ledger)
  {
    hide MirrorOk, EventsKnown, EventsFrom, Unseen;
    var start := StartOf(cfg, w);
    var evs := Recent(w.db.events, start);
    RecentIs(w.db.events, start);
    forall i | 0 <= i < |evs| && evs[i].processed ensures Canonical(w.chain, evs[i]) {
      assert evs[i] in evs;
      var k :| 0 <= k < |w.db.events| && w.db.events[k] == evs[i];
      assert EventSafe(cfg, w, w.db.events[k]);
    }
    NothingReversed(cfg, w.chain, Scan(w.db.events, {}, w.db.ledger), evs);
    ApplyReversesNothing(cfg, |w.chain| - 1, Ingested(cfg, w.chain, w.db), Dropped(cfg, w.chain, w.db).ledger);
  }

  /** Rows of the table a tick is about to apply from: canonical, or left below the window. */
  lemma IngestedSafe(cfg: Config, w: World, x: Event)
    requires Inv(cfg, w) && SafeInv(cfg, w) && x in Ingested(cfg, w.chain, w.db)
    ensures x.block >= 1
    ensures Canonical(w.chain, x) || (x in w.db.events && x.block < StartOf(cfg, w))
    ensures x.processed ==> x in w.db.events
    ensures x.processed && x.block >= StartOf(cfg, w) ==> x.block + cfg.confirmations <= |w.chain|
    ensures w.db.events == [] ==> FromBlock(cfg, CursorAt(cfg, w.chain, w.db)) < |w.chain|
  {
    hide MirrorOk, EventsKnown, DistinctLogs;
    IngestedOk(cfg, w.chain, w.db);
    DroppedOk(cfg, w.chain, w.db);
    EventsFromIs(w.chain, ScansFrom(cfg, w));
    if x in Left(Dropped(cfg, w.chain, w.db)) {
      var k :| 0 <= k < |w.db.events| && w.db.events[k] == x;
      assert EventSafe(cfg, w, w.db.events[k]);
    }
  }

  /** After a tick over a non-empty table the cursor has not gone back and is not past the head. */
  lemma CursorAfter(cfg: Config, w: World)
    requires Inv(cfg, w) && SafeInv(cfg, w)
    requires w.db.events == [] ==> FromBlock(cfg, CursorAt(cfg, w.chain, w.db)) < |w.chain|
    ensures Next(cfg, w, Tick).db.cursor.Some? && Next(cfg, w, Tick).db.cursor.value < |w.chain|
    ensures w.db.events != [] ==> StartOf(cfg, w) <= WindowStart(cfg, Next(cfg, w, Tick).db.cursor.value)
  {
    if w.db.events != [] { assert EventSafe(cfg, w, w.db.events[0]); }
  }

  lemma TickSafe(cfg: Config, w: World)
    requires Inv(cfg, w) && SafeInv(cfg, w)
    ensures SafeInv(cfg, Next(cfg, w, Tick))
  {
    hide MirrorOk, EventsKnown, Ingested, DistinctLogs;
    var w' := Next(cfg, w, Tick);
    TickReversesNothing(cfg, w);
    TickOk(cfg, w.chain, w.db);
    var table := Ingested(cfg, w.chain, w.db);
    forall i | 0 <= i < |w'.db.events| ensures EventSafe(cfg, w', w'.db.events[i]) {
      assert table[i] in table;
      IngestedSafe(cfg, w, table[i]);
      CursorAfter(cfg, w);
    }
  }

  lemma ReorgSafe(cfg: Config, w: World, keep: nat, blocks: seq<Block>)
    requires SafeInv(cfg, w) && Shallow(cfg, w, Reorg(keep, blocks))
    ensures SafeInv(cfg, Next(cfg, w, Reorg(keep, blocks)))
  {
    var w' := Next(cfg, w, Reorg(keep, blocks));
    if Minable(w, keep, blocks) {
      forall i | 0 <= i < |w.db.events| ensures EventSafe(cfg, w', w.db.events[i]) {
        var e := w.db.events[i];
        assert EventSafe(cfg, w, e);
        if e.processed && Canonical(w.chain, e) && e.block < keep { assert w'.chain[e.block] == w.chain[e.block]; }
      }
    }
  }

  lemma StepSafe(cfg: Config, w: World, s: Step)
    requires Inv(cfg, w) && SafeInv(cfg, w) && Shallow(cfg, w, s)
    ensures SafeInv(cfg, Next(cfg, w, s))
  {
    hide Inv, SafeInv, Shallow;
    if s.Tick? { TickSafe(cfg, w); } else { ReorgSafe(cfg, w, s.keep, s.blocks); }
  }

  lemma {:induction false} RunSafe(cfg: Config, w: World, steps: seq<Step>)
    requires Inv(cfg, w) && SafeInv(cfg, w) && AllShallow(cfg, w, steps)
    ensures Inv(cfg, Run(cfg, w, steps)) && SafeInv(cfg, Run(cfg, w, steps))
    decreases |steps|
  {
    hide Inv, SafeInv, Shallow;
    if steps != [] {
      StepInv(cfg, w, steps[0]);
      StepSafe(cfg, w, steps[0]);
      RunSafe(cfg, Next(cfg, w, steps[0]), steps[1..]);
    }
  }

  /**
   If the head never goes down and every reorg replaces fewer blocks than the confirmation
   depth, no applied effect is ever reversed, whatever the window.
   */
  lemma Finality(cfg: Config, w: World, steps: seq<Step>)
    requires Initial(w) && AllShallow(cfg, w, steps)
    ensures NoReversal(Run(cfg, w, steps).db.ledger)
  {
    hide Run;
    InitialInv(cfg, w);
    RunSafe(cfg, w, steps);
  }

  lemma AppliedKept(cfg: Config, w: World, e: Event)
    requires Inv(cfg, w) && SafeInv(cfg, w) && e in w.db.events && e.processed
    ensures e in Next(cfg, w, Tick).db.events
  {
    DroppedOk(cfg, w.chain, w.db);
    IngestedOk(cfg, w.chain, w.db);
    TickOk(cfg, w.chain, w.db);
    var k :| 0 <= k < |w.db.events| && w.db.events[k] == e;
    assert EventSafe(cfg, w, w.db.events[k]);
    assert e in Ingested(cfg, w.chain, w.db);
    var i :| 0 <= i < |Ingested(cfg, w.chain, w.db)| && Ingested(cfg, w.chain, w.db)[i] == e;
    assert DoTick(cfg, w.chain, w.db).events[i] == e;
  }

  lemma {:induction false} StaysFrom(cfg: Config, w: World, steps: seq<Step>, e: Event)
    requires Inv(cfg, w) && SafeInv(cfg, w) && AllShallow(cfg, w, steps)
    requires e in w.db.events && e.processed
    ensures e in Run(cfg, w, steps).db.events
    decreases |steps|
  {
    hide Inv, SafeInv, Shallow;
    if steps != [] {
      StepInv(cfg, w, steps[0]);
      StepSafe(cfg, w, steps[0]);
      if steps[0].Tick? { AppliedKept(cfg, w, e); }
      StaysFrom(cfg, Next(cfg, w, steps[0]), steps[1..], e);
    }
  }

  /** Under the same reorgs an event once applied is still stored, applied, after any continuation. */
  lemma AppliedStays(cfg: Config, w: World, before: seq<Step>, after: seq<Step>, e: Event)
    requires Initial(w) && AllShallow(cfg, w, before) && AllShallow(cfg, Run(cfg, w, before), after)
    requires e in Run(cfg, w, before).db.events && e.processed
    ensures e in Run(cfg, Run(cfg, w, before), after).db.events
  {
    hide Run;
    InitialInv(cfg, w);
    RunSafe(cfg, w, before);
    StaysFrom(cfg, Run(cfg, w, before), after, e);
  }

  // ---- staying canonical ----------------------------------------------------------------------------

  /** Applied events are buried on the canonical chain; the others still lie inside the window. */
  ghost predicate EventFinal(cfg: Config, w: World, e: Event) {
    && e.block >= 1 && w.db.cursor.Some? && w.db.cursor.value < |w.chain|
    && if e.processed then Canonical(w.chain, e) && e.block + cfg.confirmations <= |w.chain|
       else w.db.cursor.value + 1 < e.block + cfg.confirmations
  }

  ghost predicate FinalInv(cfg: Config, w: World) {
    forall i :: 0 <= i < |w.db.events| ==> EventFinal(cfg, w, w.db.events[i])
  }

  lemma IngestedFinal(cfg: Config, w: World, x: Event)
    requires Inv(cfg, w) && FinalInv(cfg, w) && SafeInv(cfg, w) && cfg.confirmations <= cfg.window + 1
    requires x in Ingested(cfg, w.chain, w.db)
    ensures Canonical(w.chain, x)
    ensures x.processed ==> x.block + cfg.confirmations <= |w.chain|
  {
    hide MirrorOk, EventsKnown, DistinctLogs;
    IngestedSafe(cfg, w, x);
    if x in w.db.events {
      var k :| 0 <= k < |w.db.events| && w.db.events[k] == x;
      assert EventFinal(cfg, w, w.db.events[k]);
    }
  }

  lemma TickFinal(cfg: Config, w: World)
    requires Inv(cfg, w) && FinalInv(cfg, w) && SafeInv(cfg, w) && cfg.confirmations <= cfg.window + 1
    ensures FinalInv(cfg, Next(cfg, w, Tick))
  {
    hide MirrorOk, EventsKnown, Ingested, DistinctLogs;
    var w' := Next(cfg, w, Tick);
    TickOk(cfg, w.chain, w.db);
    var table := Ingested(cfg, w.chain, w.db);
    forall i | 0 <= i < |w'.db.events| ensures EventFinal(cfg, w', w'.db.events[i]) {
      assert table[i] in table;
      IngestedFinal(cfg, w, table[i]);
      IngestedSafe(cfg, w, table[i]);
      CursorAfter(cfg, w);
    }
  }

  lemma ReorgFinal(cfg: Config, w: World, keep: nat, blocks: seq<Block>)
    requires FinalInv(cfg, w) && Shallow(cfg, w, Reorg(keep, blocks))
    ensures FinalInv(cfg, Next(cfg, w, Reorg(keep, blocks)))
  {
    var w' := Next(cfg, w, Reorg(keep, blocks));
    if Minable(w, keep, blocks) {
      forall i | 0 <= i < |w.db.events| ensures EventFinal(cfg, w', w.db.events[i]) {
        var e := w.db.events[i];
        assert EventFinal(cfg, w, e);
        if e.processed { assert w'.chain[e.block] == w.chain[e.block]; }
      }
    }
  }

  lemma {:induction false} RunFinal(cfg: Config, w: World, steps: seq<Step>)
    requires Inv(cfg, w) && FinalInv(cfg, w) && SafeInv(cfg, w)
    requires AllShallow(cfg, w, steps) && cfg.confirmations <= cfg.window + 1
    ensures FinalInv(cfg, Run(cfg, w, steps))
    decreases |steps|
  {
    hide Inv, FinalInv, SafeInv, Shallow;
    if steps != [] {
      StepInv(cfg, w, steps[0]);
      StepSafe(cfg, w, steps[0]);
      if steps[0].Tick? { TickFinal(cfg, w); } else { ReorgFinal(cfg, w, steps[0].keep, steps[0].blocks); }
      RunFinal(cfg, Next(cfg, w, steps[0]), steps[1..]);
    }
  }

  ghost predicate AppliedCanonical(w: World) {
    forall i :: 0 <= i < |w.db.events| && w.db.events[i].processed ==> Canonical(w.chain, w.db.events[i])
  }

  /** With a window that covers the confirmation depth, applied events also stay on the chain. */
  lemma StaysCanonical(cfg: Config, w: World, steps: seq<Step>)
    requires Initial(w) && AllShallow(cfg, w, steps) && cfg.confirmations <= cfg.window + 1
    ensures AppliedCanonical(Run(cfg, w, steps))
  {
    hide Run;
    InitialInv(cfg, w);
    RunFinal(cfg, w, steps);
    var w' := Run(cfg, w, steps);
    forall i | 0 <= i < |w'.db.events| && w'.db.events[i].processed ensures Canonical(w'.chain, w'.db.events[i]) {
      assert EventFinal(cfg, w', w'.db.events[i]);
    }
  }

  // ---- logs the watcher never sees ----------------------------------------------------------------

  /** A canonical log below the window whose key is not stored. */
  ghost predicate Missed(cfg: Config, w: World, f: Event) {
    && w.chain != [] && w.db.cursor.Some? && w.db.cursor.value < |w.chain|
    && OnChain(w.chain, f) && f.block < StartOf(cfg, w)
    && !HasKey(w.db.events, KeyOf(f.log))
  }

  ghost predicate HeadKept(w: World, s: Step) { s.Reorg? ==> |w.chain| <= s.keep + |s.blocks| }

  ghost predicate AllGrow(cfg: Config, w: World, steps: seq<Step>)
    decreases |steps|
  {
    steps != [] ==>
      InWindow(cfg, w, steps[0]) && HeadKept(w, steps[0]) && AllGrow(cfg, Next(cfg, w, steps[0]), steps[1..])
  }

  lemma TickMisses(cfg: Config, w: World, f: Event)
    requires Inv(cfg, w) && Missed(cfg, w, f)
    ensures Missed(cfg, Next(cfg, w, Tick), f)
  {
    var w' := Next(cfg, w, Tick);
    DroppedOk(cfg, w.chain, w.db);
    IngestedOk(cfg, w.chain, w.db);
    TickOk(cfg, w.chain, w.db);
    EventsFromIs(w.chain, ScansFrom(cfg, w));
    var table := Ingested(cfg, w.chain, w.db);
    forall i | 0 <= i < |w'.db.events| ensures KeyOf(w'.db.events[i].log) != KeyOf(f.log) {
      var x := table[i];
      assert x in table;
      if x in Left(Dropped(cfg, w.chain, w.db)) {
        var k :| 0 <= k < |w.db.events| && w.db.events[k] == x;
      } else if KeyOf(x.log) == KeyOf(f.log) {
        OnlyOnce(w.chain, x, f);
        assert false;
      }
    }
  }

  lemma ReorgMisses(cfg: Config, w: World, keep: nat, blocks: seq<Block>, f: Event)
    requires Missed(cfg, w, f) && InWindow(cfg, w, Reorg(keep, blocks)) && HeadKept(w, Reorg(keep, blocks))
    ensures Missed(cfg, Next(cfg, w, Reorg(keep, blocks)), f)
  {
    var w' := Next(cfg, w, Reorg(keep, blocks));
    if Minable(w, keep, blocks) { assert w'.chain[f.block] == w.chain[f.block]; }
  }

  /** While the head only grows and reorgs stay in the window, a missed log is missed for good. */
  lemma {:induction false} MissedForever(cfg: Config, w: World, steps: seq<Step>, f: Event)
    requires Inv(cfg, w) && Missed(cfg, w, f) && AllGrow(cfg, w, steps)
    ensures Missed(cfg, Run(cfg, w, steps), f)
    decreases |steps|
  {
    hide Inv, Missed, InWindow, HeadKept;
    if steps != [] {
      StepInv(cfg, w, steps[0]);
      if steps[0].Tick? { TickMisses(cfg, w, f); } else { ReorgMisses(cfg, w, steps[0].keep, steps[0].blocks, f); }
      MissedForever(cfg, Next(cfg, w, steps[0]), steps[1..], f);
    }
  }

  /**
   How a log comes to be missed: a tick drops its orphaned row, takes the re-mined log for the
   row still shown, and the chain has already grown past it by the width of the window.
   */
  lemma DroppedThenMissed(cfg: Config, w0: World, steps: seq<Step>, f: Event, more: seq<Step>)
    requires Initial(w0) && AllInWindow(cfg, w0, steps)
    requires
      var w := Run(cfg, w0, steps);
      && w.chain != [] && OnChain(w.chain, f) && ScansFrom(cfg, w) <= f.block
      && Shadowed(cfg, w, KeyOf(f.log))
      && f.block + cfg.window < |w.chain|
    requires AllGrow(cfg, Next(cfg, Run(cfg, w0, steps), Tick), more)
    ensures
      var w' := Run(cfg, Next(cfg, Run(cfg, w0, steps), Tick), more);
      OnChain(w'.chain, f) && !HasKey(w'.db.events, KeyOf(f.log))
  {
    hide Inv;
    InitialInv(cfg, w0);
    assert BelowSound(cfg, w0);
    RunSound(cfg, w0, steps);
    var w := Run(cfg, w0, steps);
    TickInv(cfg, w);
    ShownThenMissed(cfg, w, f);
    MissedForever(cfg, Next(cfg, w, Tick), more, f);
  }

  lemma ShownThenMissed(cfg: Config, w: World, f: Event)
    requires Inv(cfg, w) && BelowSound(cfg, w)
    requires OnChain(w.chain, f) && ScansFrom(cfg, w) <= f.block
    requires Shadowed(cfg, w, KeyOf(f.log)) && f.block + cfg.window < |w.chain|
    ensures Missed(cfg, Next(cfg, w, Tick), f)
  {
    var w' := Next(cfg, w, Tick);
    TickCoverage(cfg, w, f);
    TickSound(cfg, w);
    if HasKey(w'.db.events, KeyOf(f.log)) {
      var i :| 0 <= i < |w'.db.events| && KeyOf(w'.db.events[i].log) == KeyOf(f.log);
      assert OnChain(w'.chain, w'.db.events[i]);
      OnlyOnce(w.chain, w'.db.events[i], f);
      assert false;
    }
  }

  /** The tick after the one that dropped the row reads the chain again, from the new cursor's window. */
  lemma SecondTickIff(cfg: Config, w: World, f: Event)
    requires Inv(cfg, w) && BelowSound(cfg, w)
    requires OnChain(w.chain, f) && ScansFrom(cfg, w) <= f.block && Shadowed(cfg, w, KeyOf(f.log))
    ensures Stored(Next(cfg, Next(cfg, w, Tick), Tick).db.events, f) <==> f.block + cfg.window >= |w.chain|
  {
    hide Stored, Inv, BelowSound, Shadowed, Missed, Sound;
    var w1 := Next(cfg, w, Tick);
    TickInv(cfg, w);
    if f.block + cfg.window >= |w.chain| {
      TickSound(cfg, w);
      SoundShowsAll(cfg, w1, KeyOf(f.log));
      SoundBelow(cfg, w1);
      TickCoverage(cfg, w1, f);
    } else {
      ShownThenMissed(cfg, w, f);
      TickMisses(cfg, w1, f);
      MissedNotStored(cfg, Next(cfg, w1, Tick), f);
    }
  }

  lemma SoundShowsAll(cfg: Config, w: World, k: Key)
    requires w.chain != [] && Sound(w)
    ensures !Shadowed(cfg, w, k)
  {}

  lemma SoundBelow(cfg: Config, w: World)
    requires Sound(w) && w.db.cursor.Some?
    ensures BelowSound(cfg, w)
  {}

  lemma MissedNotStored(cfg: Config, w: World, f: Event)
    requires Missed(cfg, w, f)
    ensures !Stored(w.db.events, f)
  {}

  lemma StoredHasKey(table: seq<Event>, f: Event)
    requires Stored(table, f)
    ensures HasKey(table, KeyOf(f.log))
  {}

  /**
   In every reachable state, a re-mined log whose old row hides it from a tick is stored by the
   next tick on the same chain, or by any later one while the head only grows and reorgs stay
   in the window, if and only if the head is no further past it than the window is wide.
   */
  lemma RecoversIff(cfg: Config, w0: World, steps: seq<Step>, f: Event)
    requires Initial(w0) && AllInWindow(cfg, w0, steps)
    requires
      var w := Run(cfg, w0, steps);
      && w.chain != [] && OnChain(w.chain, f) && ScansFrom(cfg, w) <= f.block
      && Shadowed(cfg, w, KeyOf(f.log))
    ensures
      var w := Run(cfg, w0, steps);
      var w1 := Next(cfg, w, Tick);
      var near := f.block + cfg.window >= |w.chain|;
      && (Stored(Next(cfg, w1, Tick).db.events, f) <==> near)
      && ((exists more :: AllGrow(cfg, w1, more) && HasKey(Run(cfg, w1, more).db.events, KeyOf(f.log))) <==> near)
  {
    hide Inv, BelowSound, Shadowed, Stored, HasKey, Next, ScansFrom, OnChain, AllGrow;
    InitialInv(cfg, w0);
    assert BelowSound(cfg, w0) by { InitialSound(cfg, w0); }
    RunSound(cfg, w0, steps);
    var w := Run(cfg, w0, steps);
    var w1 := Next(cfg, w, Tick);
    SecondTickIff(cfg, w, f);
    if f.block + cfg.window >= |w.chain| {
      StoredHasKey(Next(cfg, w1, Tick).db.events, f);
      OneTick(cfg, w1);
    } else {
      forall more | AllGrow(cfg, w1, more) ensures !HasKey(Run(cfg, w1, more).db.events, KeyOf(f.log)) {
        DroppedThenMissed(cfg, w0, steps, f, more);
      }
    }
  }

  lemma InitialSound(cfg: Config, w: World)
    requires Initial(w)
    ensures BelowSound(cfg, w)
  {}

  lemma OneTick(cfg: Config, w: World)
    ensures AllGrow(cfg, w, [Tick]) && Run(cfg, w, [Tick]) == Next(cfg, w, Tick)
  {
    hide Next;
    assert [Tick][1..] == [];
    assert AllGrow(cfg, Next(cfg, w, Tick), []) && Run(cfg, Next(cfg, w, Tick), []) == Next(cfg, w, Tick);
  }

  // ---- a lone log ------------------------------------------------------------------------------

  lemma {:induction false} FirstDueOne(cfg: Config, latest: nat, e: Event, ledger: seq<Transaction>)
    ensures
      var t := EffectOf(cfg, e.log);
      ApplyDue(cfg, latest, [e], ledger) ==
        if Due(cfg, latest, e) then ([Applied(e)], ledger + if t.Some? then [t.value] else []) else ([e], ledger)
  {
    assert [e][..0] == [] && FirstDue(cfg, latest, []) == 0;
    assert FirstDue(cfg, latest, [e]) == if Due(cfg, latest, e) then 0 else 1;
    if Due(cfg, latest, e) {
      var a := Applied(e);
      assert [e][0 := a] == [a] && [a][..0] == [];
      assert FirstDue(cfg, latest, [a]) == 1;
    }
  }

  /** The first tick finds the only log of the chain in its last block. */
  lemma FindsOne(cfg: Config, chain: seq<Block>, hash: Hash, log: Log)
    requires |chain| == cfg.startBlock + 2 && chain[cfg.startBlock + 1] == Block(hash, [log])
    requires forall n :: 0 <= n <= cfg.startBlock ==> chain[n].logs == []
    requires cfg.confirmations > 1
    ensures DoTick(cfg, chain, Db(None, [], [])) ==
      Db(Some(cfg.startBlock + 1), [Event(log, cfg.startBlock + 1, hash, false, false)], [])
  {
    hide ApplyDue, EventsFrom;
    var db, top := Db(None, [], []), cfg.startBlock + 1;
    var e := Event(log, top, hash, false, false);
    assert CursorAt(cfg, chain, db) == cfg.startBlock && FromBlock(cfg, cfg.startBlock) <= top;
    OneEvent(chain, FromBlock(cfg, cfg.startBlock), top, e);
    IngestsOne(cfg, chain, db, e);
    FirstDueOne(cfg, top, e, []);
  }

  lemma IngestsOne(cfg: Config, chain: seq<Block>, db: Db, e: Event)
    requires chain != [] && db.events == [] && EventsFrom(chain, FromBlock(cfg, CursorAt(cfg, chain, db))) == [e]
    ensures Dropped(cfg, chain, db) == Scan([], {}, db.ledger) && Ingested(cfg, chain, db) == [e]
  {
    hide EventsFrom, CursorAt;
    assert Recent([], WindowStart(cfg, CursorAt(cfg, chain, db))) == [];
    assert [e][1..] == [] && Unseen([], []) == [];
    assert Unseen([], [e]) == [e] + Unseen([], [e][1..]);
  }

  lemma {:induction false} OneEvent(chain: seq<Block>, from: nat, top: nat, e: Event)
    requires from <= top == |chain| - 1 && BlockEvents(chain[top], top) == [e]
    requires forall n :: from <= n < top ==> chain[n].logs == []
    ensures EventsFrom(chain, from) == [e]
    decreases top - from
  {
    if from < top {
      assert BlockEvents(chain[from], from) == [];
      OneEvent(chain, from + 1, top, e);
    } else {
      assert EventsFrom(chain, from + 1) == [];
    }
  }

  // ---- and it happens, under shallow reorgs ---------------------------------------------------------

  const DEFAULTS := Config(3, 5, 0, map[7 := 0])

  const DEPOSIT := Log(Deposited, 1, 0, 7, 50)

  const GENESIS := World([Block(0, [])], map[0 := (0, [])], Db(None, [], []))

  const MINED_ONCE := Event(DEPOSIT, 1, 1, false, false)

  const MINED_AGAIN := Event(DEPOSIT, 1, 2, false, false)

  const REPLACED :=
    [Block(2, [DEPOSIT]), Block(3, []), Block(4, []), Block(5, []), Block(6, []), Block(7, [])]

  const SEEN := Db(Some(1), [MINED_ONCE], [])

  lemma FirstTick(chain: seq<Block>)
    requires chain == [Block(0, []), Block(1, [DEPOSIT])]
    ensures DoTick(DEFAULTS, chain, Db(None, [], [])) == SEEN
  {
    hide DoTick;
    FindsOne(DEFAULTS, chain, 1, DEPOSIT);
  }

  lemma SecondScan(w: World)
    requires w.chain == [Block(0, [])] + REPLACED && w.db == SEEN
    ensures OnChain(w.chain, MINED_AGAIN) && ScansFrom(DEFAULTS, w) == 1 && Shadowed(DEFAULTS, w, KeyOf(DEPOSIT))
  {
    hide Shadowed;
    assert w.chain[1] == REPLACED[0];
    ShadowedByOnly(DEFAULTS, w, MINED_ONCE);
  }

  /** A lone orphan row of the window shadows its key. */
  lemma ShadowedByOnly(cfg: Config, w: World, e: Event)
    requires w.chain != [] && w.db.events == [e] && Orphan(w.chain, StartOf(cfg, w), e)
    ensures Shadowed(cfg, w, KeyOf(e.log))
  {
    hide Orphan;
    assert LastOrphan(cfg, w.chain, StartOf(cfg, w), w.db.events, KeyOf(e.log), 0);
  }

  lemma {:induction false} RunSnoc(cfg: Config, w: World, steps: seq<Step>, s: Step)
    ensures Run(cfg, w, steps + [s]) == Next(cfg, Run(cfg, w, steps), s)
    ensures AllInWindow(cfg, w, steps) && InWindow(cfg, Run(cfg, w, steps), s) ==> AllInWindow(cfg, w, steps + [s])
    ensures AllShallow(cfg, w, steps) && Shallow(cfg, Run(cfg, w, steps), s) ==> AllShallow(cfg, w, steps + [s])
    decreases |steps|
  {
    hide Next, InWindow, Shallow;
    if steps == [] {
      var w' := Next(cfg, w, s);
      assert [] + [s] == [s] && [s][1..] == [];
      assert Run(cfg, w', []) == w' && AllInWindow(cfg, w', []) && AllShallow(cfg, w', []);
    } else {
      assert (steps + [s])[0] == steps[0] && (steps + [s])[1..] == steps[1..] + [s];
      RunSnoc(cfg, Next(cfg, w, steps[0]), steps[1..], s);
    }
  }

  lemma RunNothing(cfg: Config, w: World)
    ensures Run(cfg, w, []) == w && AllInWindow(cfg, w, []) && AllShallow(cfg, w, [])
  {}

  lemma MineFirst(w: World, block: Block) returns (w1: World)
    requires w == GENESIS && block == Block(1, [DEPOSIT])
    ensures Minable(w, 1, [block]) && w1 == Next(DEFAULTS, w, Reorg(1, [block]))
    ensures w1.chain == [Block(0, []), block] && w1.known.Keys == {0, 1} && w1.db == w.db
    ensures InWindow(DEFAULTS, w, Reorg(1, [block])) && Shallow(DEFAULTS, w, Reorg(1, [block]))
  {
    hide DoTick;
    assert w.chain[..1] == w.chain;
    w1 := Next(DEFAULTS, w, Reorg(1, [block]));
    assert Remember(w.known, 1, [block]) == Remember(w.known[1 := (1, [DEPOSIT])], 2, []);
  }

  lemma MineOver(w: World, blocks: seq<Block>)
    requires w.chain == [Block(0, []), Block(1, [DEPOSIT])] && w.known.Keys == {0, 1} && w.db == SEEN
    requires blocks == REPLACED
    ensures Next(DEFAULTS, w, Reorg(1, blocks)).chain == [Block(0, [])] + blocks
    ensures Next(DEFAULTS, w, Reorg(1, blocks)).db == w.db
    ensures InWindow(DEFAULTS, w, Reorg(1, blocks)) && Shallow(DEFAULTS, w, Reorg(1, blocks))
  {
    hide DoTick, Remember;
    assert w.chain[..1] == [Block(0, [])];
    assert DistinctLogs([Block(0, [])] + blocks);
    assert Minable(w, 1, blocks);
  }

  /** Mine the deposit, tick, replace its block and grow past the window before the next tick. */
  lemma LostSetup(w0: World) returns (steps: seq<Step>, w: World)
    requires w0 == GENESIS
    ensures AllInWindow(DEFAULTS, w0, steps) && AllShallow(DEFAULTS, w0, steps)
    ensures w == Run(DEFAULTS, w0, steps)
    ensures w.chain == [Block(0, [])] + REPLACED && w.db == SEEN
  {
    hide DoTick, Run, AllInWindow, AllShallow, Remember, Minable, DistinctLogs;
    var block, blocks := Block(1, [DEPOSIT]), REPLACED;
    var w1 := MineFirst(w0, block);
    FirstTick(w1.chain);
    var w2 := Next(DEFAULTS, w1, Tick);
    MineOver(w2, blocks);
    w := Next(DEFAULTS, w2, Reorg(1, blocks));
    RunNothing(DEFAULTS, w0);
    RunSnoc(DEFAULTS, w0, [], Reorg(1, [block]));
    RunSnoc(DEFAULTS, w0, [] + [Reorg(1, [block])], Tick);
    RunSnoc(DEFAULTS, w0, [] + [Reorg(1, [block])] + [Tick], Reorg(1, blocks));
    steps := [] + [Reorg(1, [block])] + [Tick] + [Reorg(1, blocks)];
  }

  /**
   With the default depths, a one-block reorg that re-mines a deposit, followed by five more
   blocks before the next tick, leaves a canonical deposit that no later tick ever stores.
   */
  lemma LostDeposit(w0: World) returns (steps: seq<Step>)
    requires w0 == GENESIS
    ensures Initial(w0) && AllInWindow(DEFAULTS, w0, steps) && AllShallow(DEFAULTS, w0, steps)
    ensures
      var w := Next(DEFAULTS, Run(DEFAULTS, w0, steps), Tick);
      forall more :: AllGrow(DEFAULTS, w, more) ==>
        var w' := Run(DEFAULTS, w, more);
        OnChain(w'.chain, MINED_AGAIN) && !HasKey(w'.db.events, KeyOf(DEPOSIT))
  {
    hide Run, Next, AllInWindow, AllShallow, AllGrow, ScansFrom, Shadowed, HasKey;
    var w;
    steps, w := LostSetup(w0);
    SecondScan(w);
    forall more | AllGrow(DEFAULTS, Next(DEFAULTS, w, Tick), more)
      ensures
        var w' := Run(DEFAULTS, Next(DEFAULTS, w, Tick), more);
        OnChain(w'.chain, MINED_AGAIN) && !HasKey(w'.db.events, KeyOf(DEPOSIT))
    {
      DroppedThenMissed(DEFAULTS, w0, steps, MINED_AGAIN, more);
    }
  }
}
