/** The watcher's promises, over every run of ticks, chain growth and reorganisations. */
module WatcherTheorems {
  import opened Common
  import opened Money
  import opened Ledger
  import opened Watcher
  import opened WatcherMirror

  // ---- what one tick does to the table ---------------------------------------------------------

  function StartOf(cfg: Config, w: World): nat
    requires w.chain != []
  {
    WindowStart(cfg, CursorAt(cfg, w.chain, w.db))
  }

  /** The reorg check removes exactly the orphans of the window. */
  lemma DroppedOk(cfg: Config, chain: seq<Block>, db: Db)
    requires chain != [] && MirrorOk(cfg, db.events, db.ledger)
    ensures
      var s := Dropped(cfg, chain, db);
      var start := WindowStart(cfg, CursorAt(cfg, chain, db));
      && ScanOk(cfg, s)
      && (forall x :: x in Left(s) <==> x in db.events && (x.block >= start ==> Canonical(chain, x)))
      && (forall x :: x in s.table ==> x in db.events)
      && (forall k :: k in s.doomed ==>
        exists i ::
          && 0 <= i < |db.events| && db.events[i].block >= start
          && !Canonical(chain, db.events[i]) && KeyOf(db.events[i].log) == k)
  {
    var start := WindowStart(cfg, CursorAt(cfg, chain, db));
    var s0 := Scan(db.events, {}, db.ledger);
    KeepNothing(db.events);
    RecentIs(db.events, start);
    var evs := Recent(db.events, start);
    DropOrphansOk(cfg, chain, s0, evs);
    var s := Dropped(cfg, chain, db);
    forall k | k in s.doomed
      ensures exists i ::
        && 0 <= i < |db.events| && db.events[i].block >= start
        && !Canonical(chain, db.events[i]) && KeyOf(db.events[i].log) == k
    {
      var j :| 0 <= j < |evs| && !Canonical(chain, evs[j]) && KeyOf(evs[j].log) == k;
      assert evs[j] in evs;
      var i :| 0 <= i < |db.events| && db.events[i] == evs[j];
    }
  }

  lemma IngestedOk(cfg: Config, chain: seq<Block>, db: Db)
    requires chain != [] && MirrorOk(cfg, db.events, db.ledger) && DistinctLogs(chain)
    ensures MirrorOk(cfg, Ingested(cfg, chain, db), Dropped(cfg, chain, db).ledger)
    ensures
      var s := Dropped(cfg, chain, db);
      var found := EventsFrom(chain, FromBlock(cfg, CursorAt(cfg, chain, db)));
      forall x :: x in Ingested(cfg, chain, db) <==> x in Left(s) || (x in found && !HasKey(s.table, KeyOf(x.log)))
  {
    var s := Dropped(cfg, chain, db);
    var from := FromBlock(cfg, CursorAt(cfg, chain, db));
    var found := EventsFrom(chain, from);
    DroppedOk(cfg, chain, db);
    EventsFromIs(chain, from);
    EventsFromDistinct(chain, from);
    UnseenIs(s.table, found);
    KeepIs(s.table, s.doomed);
    var a, b := Left(s), Unseen(s.table, found);
    forall i, j | 0 <= i < |a| && 0 <= j < |b| ensures KeyOf(a[i].log) != KeyOf(b[j].log) {
      assert a[i] in s.table && b[j] in b;
      var k :| 0 <= k < |s.table| && s.table[k] == a[i];
      assert !HasKey(s.table, KeyOf(b[j].log));
    }
    forall d: nat ensures Processed(cfg, a + b, d) == Processed(cfg, a, d) { ProcessedAppend(cfg, a, b, d); }
  }

  /** A tick as a whole: rows of the ingested table, the due ones marked. */
  lemma TickOk(cfg: Config, chain: seq<Block>, db: Db)
    requires chain != [] && MirrorOk(cfg, db.events, db.ledger) && DistinctLogs(chain)
    ensures
      var table := Ingested(cfg, chain, db);
      var db' := DoTick(cfg, chain, db);
      && MirrorOk(cfg, db'.events, db'.ledger)
      && |db'.events| == |table|
      && forall i :: 0 <= i < |table| ==>
        db'.events[i] == if Due(cfg, |chain| - 1, table[i]) then Applied(table[i]) else table[i]
  {
    hide MirrorOk, Ingested, Dropped, DistinctLogs;
    IngestedOk(cfg, chain, db);
    ApplyDueOk(cfg, |chain| - 1, Ingested(cfg, chain, db), Dropped(cfg, chain, db).ledger);
  }

  predicate SameLog(x: Event, e: Event) { x.log == e.log && x.block == e.block && x.hash == e.hash }

  /** Every stored row after a tick was stored before and survived, or was found on the chain. */
  lemma TickOrigin(cfg: Config, chain: seq<Block>, db: Db, i: nat)
    requires chain != [] && MirrorOk(cfg, db.events, db.ledger) && DistinctLogs(chain)
    requires i < |DoTick(cfg, chain, db).events|
    ensures
      var e := DoTick(cfg, chain, db).events[i];
      var start := WindowStart(cfg, CursorAt(cfg, chain, db));
      || (exists x ::
        && x in db.events && SameLog(x, e)
        && (x.processed ==> e == x) && (x.block >= start ==> Canonical(chain, x)))
      || (Canonical(chain, e) && e.log in chain[e.block].logs && e.block >= FromBlock(cfg, CursorAt(cfg, chain, db)))
  {
    TickOk(cfg, chain, db);
    IngestedOk(cfg, chain, db);
    DroppedOk(cfg, chain, db);
    EventsFromIs(chain, FromBlock(cfg, CursorAt(cfg, chain, db)));
    var x := Ingested(cfg, chain, db)[i];
    assert x in Ingested(cfg, chain, db);
  }

  // ---- the mirror ---------------------------------------------------------------------------------

  ghost predicate Inv(cfg: Config, w: World) {
    ChainKnown(w) && MirrorOk(cfg, w.db.events, w.db.ledger) && EventsKnown(w)
  }

  /** A stored event is a log of the block its hash names. */
  ghost predicate EventKnown(known: map<Hash, (nat, seq<Log>)>, e: Event) {
    e.hash in known && known[e.hash].0 == e.block && e.log in known[e.hash].1
  }

  ghost predicate EventsKnown(w: World) {
    forall i :: 0 <= i < |w.db.events| ==> EventKnown(w.known, w.db.events[i])
  }

  lemma {:induction false} RememberIs(known: map<Hash, (nat, seq<Log>)>, base: nat, blocks: seq<Block>)
    requires forall i :: 0 <= i < |blocks| ==> blocks[i].hash !in known
    requires forall i, j :: 0 <= i < j < |blocks| ==> blocks[i].hash != blocks[j].hash
    ensures forall h :: h in known ==>
      h in Remember(known, base, blocks) && Remember(known, base, blocks)[h] == known[h]
    ensures forall i :: 0 <= i < |blocks| ==>
      && blocks[i].hash in Remember(known, base, blocks)
      && Remember(known, base, blocks)[blocks[i].hash] == (base + i, blocks[i].logs)
    decreases |blocks|
  {
    if blocks != [] {
      var known' := known[blocks[0].hash := (base, blocks[0].logs)];
      RememberIs(known', base + 1, blocks[1..]);
      forall i | 0 <= i < |blocks|
        ensures blocks[i].hash in Remember(known, base, blocks)
        ensures Remember(known, base, blocks)[blocks[i].hash] == (base + i, blocks[i].logs)
      {
        if i > 0 { assert blocks[i] == blocks[1..][i - 1]; }
      }
    }
  }

  lemma ReorgInv(cfg: Config, w: World, keep: nat, blocks: seq<Block>)
    requires Inv(cfg, w)
    ensures Inv(cfg, Next(cfg, w, Reorg(keep, blocks)))
  {
    var w' := Next(cfg, w, Reorg(keep, blocks));
    if Minable(w, keep, blocks) {
      RememberIs(w.known, keep, blocks);
      forall n | 0 <= n < |w'.chain|
        ensures w'.chain[n].hash in w'.known && w'.known[w'.chain[n].hash] == (n, w'.chain[n].logs)
      {
        if n < keep { assert w'.chain[n] == w.chain[n]; } else { assert w'.chain[n] == blocks[n - keep]; }
      }
      forall i | 0 <= i < |w.db.events| ensures EventKnown(w'.known, w.db.events[i]) {
        assert EventKnown(w.known, w.db.events[i]);
      }
    }
  }

  lemma TickInv(cfg: Config, w: World)
    requires Inv(cfg, w)
    ensures Inv(cfg, Next(cfg, w, Tick))
  {
    var w' := Next(cfg, w, Tick);
    TickOk(cfg, w.chain, w.db);
    forall i | 0 <= i < |w'.db.events| ensures EventKnown(w'.known, w'.db.events[i]) {
      TickOrigin(cfg, w.chain, w.db, i);
      var e := w'.db.events[i];
      if x :| x in w.db.events && SameLog(x, e) {
        var k :| 0 <= k < |w.db.events| && w.db.events[k] == x;
        assert EventKnown(w.known, w.db.events[k]);
      }
    }
  }

  lemma StepInv(cfg: Config, w: World, s: Step)
    requires Inv(cfg, w)
    ensures Inv(cfg, Next(cfg, w, s))
  {
    match s
    case Tick => TickInv(cfg, w);
    case Reorg(keep, blocks) => ReorgInv(cfg, w, keep, blocks);
  }

  lemma {:induction false} RunInv(cfg: Config, w: World, steps: seq<Step>)
    requires Inv(cfg, w)
    ensures Inv(cfg, Run(cfg, w, steps))
    decreases |steps|
  {
    hide Inv;
    if steps != [] {
      StepInv(cfg, w, steps[0]);
      RunInv(cfg, Next(cfg, w, steps[0]), steps[1..]);
    }
  }

  lemma InitialInv(cfg: Config, w: World)
    requires Initial(w)
    ensures Inv(cfg, w)
  {
  }

  /**
   Through any run, a developer's chain-caused balance is its processed stored deposits less
   its processed stored withdrawals: each log counts at most once, orphaned effects are undone
   in full, and every posting balances.
   */
  lemma MirrorHolds(cfg: Config, w: World, steps: seq<Step>, d: nat)
    requires Initial(w)
    ensures
      var db := Run(cfg, w, steps).db;
      && DistinctKeys(db.events) && LedgerOk(db.ledger)
      && Balance(db.ledger, Developer, d) == Processed(cfg, db.events, d)
  {
    InitialInv(cfg, w);
    RunInv(cfg, w, steps);
  }

  // ---- soundness and coverage ------------------------------------------------------------------------

  /** A reorg that leaves every block below the trailing window alone. */
  ghost predicate InWindow(cfg: Config, w: World, s: Step) {
    s.Reorg? && w.chain != [] && w.db.cursor.Some? ==> Min(StartOf(cfg, w), |w.chain|) <= s.keep
  }

  ghost predicate AllInWindow(cfg: Config, w: World, steps: seq<Step>)
    decreases |steps|
  {
    steps != [] ==> InWindow(cfg, w, steps[0]) && AllInWindow(cfg, Next(cfg, w, steps[0]), steps[1..])
  }

  ghost predicate OnChain(chain: seq<Block>, e: Event) {
    Canonical(chain, e) && e.log in chain[e.block].logs
  }

  /** Between ticks, stored events below the window are on the canonical chain. */
  ghost predicate BelowSound(cfg: Config, w: World) {
    && (w.db.cursor.None? ==> w.db.events == [])
    && (w.chain != [] ==> forall i :: 0 <= i < |w.db.events| && w.db.events[i].block < StartOf(cfg, w) ==>
      Canonical(w.chain, w.db.events[i]))
  }

  ghost predicate Sound(w: World) {
    forall i :: 0 <= i < |w.db.events| ==> OnChain(w.chain, w.db.events[i])
  }

  /** A hash names one block, so a canonical stored event is a log of the canonical block. */
  lemma CanonicalOnChain(cfg: Config, w: World, e: Event)
    requires ChainKnown(w) && EventKnown(w.known, e) && Canonical(w.chain, e)
    ensures OnChain(w.chain, e)
  {
  }

  lemma TickSound(cfg: Config, w: World)
    requires Inv(cfg, w) && BelowSound(cfg, w)
    ensures Sound(Next(cfg, w, Tick))
  {
    var w' := Next(cfg, w, Tick);
    TickInv(cfg, w);
    forall i | 0 <= i < |w'.db.events| ensures OnChain(w'.chain, w'.db.events[i]) {
      TickOrigin(cfg, w.chain, w.db, i);
      var e := w'.db.events[i];
      if x :| x in w.db.events && SameLog(x, e) && (x.block >= StartOf(cfg, w) ==> Canonical(w.chain, x)) {
        var k :| 0 <= k < |w.db.events| && w.db.events[k] == x;
        assert Canonical(w.chain, x);
      }
      assert EventKnown(w'.known, e);
      CanonicalOnChain(cfg, w', e);
    }
  }

  lemma ReorgSound(cfg: Config, w: World, keep: nat, blocks: seq<Block>)
    requires Inv(cfg, w) && BelowSound(cfg, w) && InWindow(cfg, w, Reorg(keep, blocks))
    ensures BelowSound(cfg, Next(cfg, w, Reorg(keep, blocks)))
  {
    var w' := Next(cfg, w, Reorg(keep, blocks));
    if Minable(w, keep, blocks) && w.db.cursor.Some? {
      forall i | 0 <= i < |w.db.events| && w.db.events[i].block < StartOf(cfg, w')
        ensures Canonical(w'.chain, w.db.events[i])
      {
        assert Canonical(w.chain, w.db.events[i]);
        assert w'.chain[w.db.events[i].block] == w.chain[w.db.events[i].block];
      }
    }
  }

  lemma StepSound(cfg: Config, w: World, s: Step)
    requires Inv(cfg, w) && BelowSound(cfg, w) && InWindow(cfg, w, s)
    ensures BelowSound(cfg, Next(cfg, w, s))
  {
    match s
    case Tick => TickSound(cfg, w);
    case Reorg(keep, blocks) => ReorgSound(cfg, w, keep, blocks);
  }

  lemma {:induction false} RunSound(cfg: Config, w: World, steps: seq<Step>)
    requires Inv(cfg, w) && BelowSound(cfg, w) && AllInWindow(cfg, w, steps)
    ensures Inv(cfg, Run(cfg, w, steps)) && BelowSound(cfg, Run(cfg, w, steps))
    decreases |steps|
  {
    hide Inv, BelowSound, InWindow;
    if steps != [] {
      StepSound(cfg, w, steps[0]);
      StepInv(cfg, w, steps[0]);
      RunSound(cfg, Next(cfg, w, steps[0]), steps[1..]);
    }
  }

  /** If reorgs stay inside the window, after every tick each stored event is a log of the chain. */
  lemma Soundness(cfg: Config, w: World, steps: seq<Step>)
    requires Initial(w) && AllInWindow(cfg, w, steps)
    ensures Sound(Next(cfg, Run(cfg, w, steps), Tick))
  {
    InitialInv(cfg, w);
    assert BelowSound(cfg, w);
    RunSound(cfg, w, steps);
    TickSound(cfg, Run(cfg, w, steps));
  }

  /** A row of the window whose block is no longer the one on the chain. */
  predicate Orphan(chain: seq<Block>, start: nat, e: Event) { e.block >= start && !Canonical(chain, e) }

  /** Dropping the row posts a reversal, which flushes the session. */
  predicate Reverses(cfg: Config, e: Event) { e.processed && Effectful(e.log) && e.log.wallet in cfg.owners }

  /** No orphan from position `i` on posts a reversal. */
  ghost predicate QuietFrom(cfg: Config, chain: seq<Block>, start: nat, table: seq<Event>, i: nat) {
    forall j :: i <= j < |table| && Orphan(chain, start, table[j]) ==> !Reverses(cfg, table[j])
  }

  /** The last orphan row under a key, with no reversal posted after it. */
  ghost predicate LastOrphan(cfg: Config, chain: seq<Block>, start: nat, table: seq<Event>, k: Key, i: nat) {
    && i < |table| && Orphan(chain, start, table[i]) && KeyOf(table[i].log) == k
    && QuietFrom(cfg, chain, start, table, i + 1)
  }

  /** A log under this key is taken for an orphan row that is marked deleted but not flushed. */
  ghost predicate Shadowed(cfg: Config, w: World, k: Key)
    requires w.chain != []
  {
    exists i: nat :: LastOrphan(cfg, w.chain, StartOf(cfg, w), w.db.events, k, i)
  }

  /** What the reorg check leaves marked, read off the chain and the table. */
  lemma {:induction false} DoomedIs(cfg: Config, chain: seq<Block>, s: Scan, table: seq<Event>, start: nat, k: Key)
    ensures k in DropOrphans(cfg, chain, s, Recent(table, start)).doomed <==>
      || (exists i: nat :: LastOrphan(cfg, chain, start, table, k, i))
      || (k in s.doomed && QuietFrom(cfg, chain, start, table, 0))
    decreases |table|
  {
    hide Canonical, Effectful;
    if table != [] {
      var e, rest := table[0], table[1..];
      var s1 := if Orphan(chain, start, e) then DropOne(cfg, s, e) else s;
      assert DropOrphans(cfg, chain, s, Recent(table, start)) == DropOrphans(cfg, chain, s1, Recent(rest, start)) by {
        if e.block >= start {
          assert Recent(table, start) == [e] + Recent(rest, start) &&
            ([e] + Recent(rest, start))[1..] == Recent(rest, start);
        } else {
          assert Recent(table, start) == Recent(rest, start);
        }
      }
      DoomedIs(cfg, chain, s1, rest, start, k);
      DroppedMarks(cfg, s, e, k);
      TailQuiet(cfg, chain, start, table, k);
    }
  }

  lemma DroppedMarks(cfg: Config, s: Scan, e: Event, k: Key)
    ensures k in DropOne(cfg, s, e).doomed <==> k == KeyOf(e.log) || (k in s.doomed && !Reverses(cfg, e))
  {}

  /** Positions of a table against those of its tail. */
  lemma TailQuiet(cfg: Config, chain: seq<Block>, start: nat, table: seq<Event>, k: Key)
    requires table != []
    ensures QuietFrom(cfg, chain, start, table, 1) <==> QuietFrom(cfg, chain, start, table[1..], 0)
    ensures QuietFrom(cfg, chain, start, table, 0) <==>
      QuietFrom(cfg, chain, start, table[1..], 0) && (Orphan(chain, start, table[0]) ==> !Reverses(cfg, table[0]))
    ensures (exists i: nat :: LastOrphan(cfg, chain, start, table, k, i)) <==>
      || LastOrphan(cfg, chain, start, table, k, 0)
      || exists i: nat :: LastOrphan(cfg, chain, start, table[1..], k, i)
  {
    hide Orphan, Reverses;
    var rest := table[1..];
    ShiftQuiet(cfg, chain, start, table, 0);
    if i: nat :| LastOrphan(cfg, chain, start, table, k, i) {
      if i > 0 {
        ShiftQuiet(cfg, chain, start, table, i);
        assert LastOrphan(cfg, chain, start, rest, k, i - 1);
      }
    }
    if i: nat :| LastOrphan(cfg, chain, start, rest, k, i) {
      ShiftQuiet(cfg, chain, start, table, i + 1);
      assert LastOrphan(cfg, chain, start, table, k, i + 1);
    }
  }

  lemma ShiftQuiet(cfg: Config, chain: seq<Block>, start: nat, table: seq<Event>, i: nat)
    requires table != []
    ensures QuietFrom(cfg, chain, start, table[1..], i) <==> QuietFrom(cfg, chain, start, table, i + 1)
  {
    hide Orphan, Reverses;
    if QuietFrom(cfg, chain, start, table[1..], i) {
      forall j | i + 1 <= j < |table| && Orphan(chain, start, table[j]) ensures !Reverses(cfg, table[j]) {
        assert table[1..][j - 1] == table[j];
      }
    }
  }

  /** A key is marked and unflushed after the reorg check exactly when it is shadowed. */
  lemma ShadowedIs(cfg: Config, w: World, k: Key)
    requires w.chain != []
    ensures Shadowed(cfg, w, k) <==> k in Dropped(cfg, w.chain, w.db).doomed
  {
    hide DropOrphans;
    DoomedIs(cfg, w.chain, Scan(w.db.events, {}, w.db.ledger), w.db.events, StartOf(cfg, w), k);
  }

  /** Where a tick starts reading logs. */
  function ScansFrom(cfg: Config, w: World): nat
    requires w.chain != []
  {
    FromBlock(cfg, CursorAt(cfg, w.chain, w.db))
  }

  lemma OnlyOnce(chain: seq<Block>, e: Event, f: Event)
    requires DistinctLogs(chain) && OnChain(chain, e) && OnChain(chain, f) && KeyOf(e.log) == KeyOf(f.log)
    ensures SameLog(e, f)
  {
    var i :| 0 <= i < |chain[e.block].logs| && chain[e.block].logs[i] == e.log;
    var j :| 0 <= j < |chain[f.block].logs| && chain[f.block].logs[j] == f.log;
  }

  /** Applying marks rows but moves none: the same logs are stored before and after. */
  lemma AppliedSame(cfg: Config, latest: nat, table: seq<Event>, events: seq<Event>, f: Event)
    requires |events| == |table|
    requires forall i :: 0 <= i < |table| ==>
      events[i] == if Due(cfg, latest, table[i]) then Applied(table[i]) else table[i]
    ensures Stored(events, f) <==> exists x :: x in table && SameLog(x, f)
  {
    if Stored(events, f) {
      var i :| 0 <= i < |events| && events[i].log == f.log && events[i].block == f.block && events[i].hash == f.hash;
      assert table[i] in table && SameLog(table[i], f);
    }
    if x :| x in table && SameLog(x, f) {
      var i :| 0 <= i < |table| && table[i] == x;
      assert SameLog(events[i], f);
    }
  }

  lemma StoredAfter(cfg: Config, w: World, f: Event)
    requires Inv(cfg, w)
    ensures Stored(Next(cfg, w, Tick).db.events, f) <==> exists x :: x in Ingested(cfg, w.chain, w.db) && SameLog(x, f)
  {
    TickOk(cfg, w.chain, w.db);
    AppliedSame(cfg, |w.chain| - 1, Ingested(cfg, w.chain, w.db), DoTick(cfg, w.chain, w.db).events, f);
  }

  /**
   A canonical log in the scanned range is stored after the tick if and only if no orphan row of
   the window under its key, with no reversal posted after it, makes it look stored already.
   */
  lemma TickCoverage(cfg: Config, w: World, f: Event)
    requires Inv(cfg, w) && BelowSound(cfg, w)
    requires OnChain(w.chain, f) && ScansFrom(cfg, w) <= f.block
    ensures Stored(Next(cfg, w, Tick).db.events, f) <==> !Shadowed(cfg, w, KeyOf(f.log))
  {
    hide Inv, BelowSound, Stored, Next, Shadowed, Dropped, ScansFrom;
    MarkedCoverage(cfg, w, f);
    ShadowedIs(cfg, w, KeyOf(f.log));
  }

  lemma MarkedCoverage(cfg: Config, w: World, f: Event)
    requires Inv(cfg, w) && BelowSound(cfg, w)
    requires OnChain(w.chain, f) && ScansFrom(cfg, w) <= f.block
    ensures Stored(Next(cfg, w, Tick).db.events, f) <==> KeyOf(f.log) !in Dropped(cfg, w.chain, w.db).doomed
  {
    var s := Dropped(cfg, w.chain, w.db);
    var k := KeyOf(f.log);
    DroppedOk(cfg, w.chain, w.db);
    IngestedOk(cfg, w.chain, w.db);
    StoredAfter(cfg, w, f);
    KeepIs(s.table, s.doomed);
    if x :| x in Ingested(cfg, w.chain, w.db) && SameLog(x, f) {
      ShownNotStored(cfg, w, s, x);
    }
    if k !in s.doomed {
      if HasKey(s.table, k) {
        var i :| 0 <= i < |s.table| && KeyOf(s.table[i].log) == k;
        var x := s.table[i];
        assert x in s.table && x in Left(s);
        KeptOnChain(cfg, w, x);
        OnlyOnce(w.chain, x, f);
      } else {
        var found := EventsFrom(w.chain, ScansFrom(cfg, w));
        EventsFromIs(w.chain, ScansFrom(cfg, w));
        var j :| 0 <= j < |w.chain[f.block].logs| && w.chain[f.block].logs[j] == f.log;
        var x := Event(w.chain[f.block].logs[j], f.block, w.chain[f.block].hash, false, false);
        assert x in found && SameLog(x, f);
      }
    }
  }

  lemma ShownNotStored(cfg: Config, w: World, s: Scan, x: Event)
    requires w.chain != [] && s == Dropped(cfg, w.chain, w.db) && ScanOk(cfg, s)
    requires x in Left(s) || !HasKey(s.table, KeyOf(x.log))
    ensures KeyOf(x.log) !in s.doomed
  {
    KeepIs(s.table, s.doomed);
  }

  /** What the reorg check keeps is on the chain: it was verified, or lies below the window. */
  lemma KeptOnChain(cfg: Config, w: World, x: Event)
    requires Inv(cfg, w) && BelowSound(cfg, w) && x in Left(Dropped(cfg, w.chain, w.db))
    ensures OnChain(w.chain, x)
  {
    DroppedOk(cfg, w.chain, w.db);
    var i :| 0 <= i < |w.db.events| && w.db.events[i] == x;
    assert EventKnown(w.known, w.db.events[i]);
    CanonicalOnChain(cfg, w, x);
  }

  /**
   In every run whose reorgs stay inside the window: after a tick, a canonical log of the
   scanned range is stored if and only if it is not shadowed by an orphan row; and what is
   stored under an unshadowed key of that range is exactly what is canonical.
   */
  lemma Coverage(cfg: Config, w0: World, steps: seq<Step>, f: Event)
    requires Initial(w0) && AllInWindow(cfg, w0, steps)
    requires Run(cfg, w0, steps).chain != []
    requires ScansFrom(cfg, Run(cfg, w0, steps)) <= f.block
    ensures
      var w := Run(cfg, w0, steps);
      var stored := Stored(Next(cfg, w, Tick).db.events, f);
      && (OnChain(w.chain, f) ==> (stored <==> !Shadowed(cfg, w, KeyOf(f.log))))
      && (!Shadowed(cfg, w, KeyOf(f.log)) ==> (stored <==> OnChain(w.chain, f)))
  {
    InitialInv(cfg, w0);
    assert BelowSound(cfg, w0);
    RunSound(cfg, w0, steps);
    var w := Run(cfg, w0, steps);
    if OnChain(w.chain, f) { TickCoverage(cfg, w, f); }
    TickSound(cfg, w);
    if Stored(Next(cfg, w, Tick).db.events, f) {
      var events := Next(cfg, w, Tick).db.events;
      var i :| 0 <= i < |events| && SameLog(events[i], f);
      assert OnChain(w.chain, events[i]);
    }
  }
}
