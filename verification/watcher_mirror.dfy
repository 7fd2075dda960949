/** What the reorg check and the apply pass do to the table and the ledger together. */
module WatcherMirror {
  import opened Common
  import opened Money
  import opened Ledger
  import opened Watcher

  ghost predicate DistinctKeys(table: seq<Event>) {
    forall i, j :: 0 <= i < j < |table| ==> KeyOf(table[i].log) != KeyOf(table[j].log)
  }

  /** What an applied event is worth to a developer, in ledger ticks. */
  function Worth(cfg: Config, l: Log, d: nat): int {
    if l.wallet !in cfg.owners || cfg.owners[l.wallet] != d then 0
    else
      match l.name
      case Deposited => FromUnits(l.amount)
      case Withdrawn => -(FromUnits(l.amount) as int)
      case _ => 0
  }

  /** Processed stored deposits less processed stored withdrawals of a developer. */
  function Processed(cfg: Config, table: seq<Event>, d: nat): int {
    if table == [] then 0
    else (if table[0].processed then Worth(cfg, table[0].log, d) else 0) + Processed(cfg, table[1..], d)
  }

  // ---- keeping and dropping rows -----------------------------------------------------------

  lemma {:induction false} KeepIs(table: seq<Event>, doomed: set<Key>)
    ensures forall x :: x in Keep(table, doomed) <==> x in table && KeyOf(x.log) !in doomed
    ensures DistinctKeys(table) ==> DistinctKeys(Keep(table, doomed))
  {
    if table != [] {
      KeepIs(table[1..], doomed);
      var rest := Keep(table[1..], doomed);
      if DistinctKeys(table) {
        assert DistinctKeys(table[1..]);
        forall k | 0 <= k < |rest| ensures KeyOf(table[0].log) != KeyOf(rest[k].log) {
          assert rest[k] in table[1..];
        }
      }
    }
  }

  lemma {:induction false} KeepNothing(table: seq<Event>)
    ensures Keep(table, {}) == table
  {
    if table != [] { KeepNothing(table[1..]); }
  }

  /** Dropping one more row takes exactly its worth out of the sum. */
  lemma {:induction false} KeepOneLess(cfg: Config, table: seq<Event>, doomed: set<Key>, e: Event, d: nat)
    requires DistinctKeys(table) && e in table && KeyOf(e.log) !in doomed
    ensures Processed(cfg, Keep(table, doomed + {KeyOf(e.log)}), d) ==
            Processed(cfg, Keep(table, doomed), d) - if e.processed then Worth(cfg, e.log, d) else 0
  {
    var k := KeyOf(e.log);
    assert DistinctKeys(table[1..]);
    if table[0] == e {
      KeepSame(table[1..], doomed, k);
      var rest := Keep(table[1..], doomed);
      assert Keep(table, doomed) == [e] + rest && ([e] + rest)[1..] == rest;
      assert Keep(table, doomed + {k}) == Keep(table[1..], doomed + {k});
    } else {
      KeepOneLess(cfg, table[1..], doomed, e, d);
      var i :| 0 <= i < |table| && table[i] == e;
      assert KeyOf(table[0].log) != k;
      if KeyOf(table[0].log) !in doomed {
        assert Keep(table, doomed) == [table[0]] + Keep(table[1..], doomed);
        assert Keep(table, doomed + {k}) == [table[0]] + Keep(table[1..], doomed + {k});
      } else {
        assert Keep(table, doomed) == Keep(table[1..], doomed);
        assert Keep(table, doomed + {k}) == Keep(table[1..], doomed + {k});
      }
    }
  }

  lemma {:induction false} KeepSame(table: seq<Event>, doomed: set<Key>, k: Key)
    requires forall i :: 0 <= i < |table| ==> KeyOf(table[i].log) != k
    ensures Keep(table, doomed + {k}) == Keep(table, doomed)
  {
    if table != [] { KeepSame(table[1..], doomed, k); }
  }

  // ---- one orphan ------------------------------------------------------------------------------

  lemma ReversalMoves(cfg: Config, l: Log, d: nat)
    ensures ReversalOf(cfg, l).Some? ==>
      && Balanced(ReversalOf(cfg, l).value.postings)
      && Moved(ReversalOf(cfg, l).value.postings, Developer, d) == -Worth(cfg, l, d)
    ensures ReversalOf(cfg, l).None? ==> Worth(cfg, l, d) == 0
  {
    var t := ReversalOf(cfg, l);
    if t.Some? {
      var dev, ticks := Some(cfg.owners[l.wallet]), FromUnits(l.amount);
      if l.name == Deposited {
        TransferMoves(t.value, ReorgReverse, None, Developer, dev, Protocol, None, ticks, Developer, d);
      } else {
        TransferMoves(t.value, ReorgReverse, None, Protocol, None, Developer, dev, ticks, Developer, d);
      }
    }
  }

  lemma EffectMoves(cfg: Config, l: Log, d: nat)
    ensures EffectOf(cfg, l).Some? ==>
      && Balanced(EffectOf(cfg, l).value.postings)
      && Moved(EffectOf(cfg, l).value.postings, Developer, d) == Worth(cfg, l, d)
    ensures EffectOf(cfg, l).None? ==> Worth(cfg, l, d) == 0
  {
    var t := EffectOf(cfg, l);
    if t.Some? {
      var dev, ticks := Some(cfg.owners[l.wallet]), FromUnits(l.amount);
      if l.name == Deposited {
        TransferMoves(t.value, ChainDeposit, None, Protocol, None, Developer, dev, ticks, Developer, d);
      } else {
        TransferMoves(t.value, ChainWithdraw, None, Developer, dev, Protocol, None, ticks, Developer, d);
      }
    }
  }

  /** The rows a session will have once flushed. */
  function Left(s: Scan): seq<Event> { Keep(s.table, s.doomed) }

  /** The session's books mirror the rows it keeps; marked rows are still shown. */
  ghost predicate ScanOk(cfg: Config, s: Scan) {
    && DistinctKeys(s.table) && LedgerOk(s.ledger)
    && (forall k :: k in s.doomed ==> HasKey(s.table, k))
    && (forall d: nat :: Balance(s.ledger, Developer, d) == Processed(cfg, Left(s), d))
  }

  lemma DropOneOk(cfg: Config, s: Scan, e: Event)
    requires ScanOk(cfg, s) && e in s.table && KeyOf(e.log) !in s.doomed
    ensures ScanOk(cfg, DropOne(cfg, s, e))
    ensures forall x :: x in Left(DropOne(cfg, s, e)) <==> x in Left(s) && x != e
    ensures forall x :: x in DropOne(cfg, s, e).table ==> x in s.table
    ensures forall x :: x in Left(s) ==> x in DropOne(cfg, s, e).table
    ensures forall k :: k in DropOne(cfg, s, e).doomed ==> k in s.doomed || k == KeyOf(e.log)
    ensures KeyOf(e.log) in DropOne(cfg, s, e).doomed
  {
    var t := if e.processed then ReversalOf(cfg, e.log) else None;
    var s1 := if t.Some? then Scan(Keep(s.table, s.doomed), {}, s.ledger + [t.value]) else s;
    var s' := DropOne(cfg, s, e);
    KeepIs(s.table, s.doomed);
    KeepNothing(Keep(s.table, s.doomed));
    assert Left(s1) == Left(s);
    assert e in s1.table;
    KeepIs(s1.table, s'.doomed);
    DistinctMembers(s.table);
    forall d: nat ensures Balance(s'.ledger, Developer, d) == Processed(cfg, Left(s'), d) {
      KeepOneLess(cfg, s1.table, s1.doomed, e, d);
      ReversalMoves(cfg, e.log, d);
      if t.Some? { BalanceAppend(s.ledger, t.value, Developer, d); }
    }
    forall k | k in s'.doomed ensures HasKey(s'.table, k) {
      if k == KeyOf(e.log) {
        var i :| 0 <= i < |s1.table| && s1.table[i] == e;
      }
    }
    if t.Some? { ReversalMoves(cfg, e.log, 0); }
  }

  lemma DistinctMembers(table: seq<Event>)
    requires DistinctKeys(table)
    ensures forall x, y :: x in table && y in table && KeyOf(x.log) == KeyOf(y.log) ==> x == y
  {
  }

  /** The reorg check removes the orphans it was shown, and nothing else. */
  lemma {:induction false} DropOrphansOk(cfg: Config, chain: seq<Block>, s: Scan, evs: seq<Event>)
    requires ScanOk(cfg, s) && DistinctKeys(evs)
    requires forall x :: x in evs ==> x in Left(s)
    ensures ScanOk(cfg, DropOrphans(cfg, chain, s, evs))
    ensures forall x :: x in Left(DropOrphans(cfg, chain, s, evs)) <==>
      x in Left(s) && !(x in evs && !Canonical(chain, x))
    ensures forall x :: x in DropOrphans(cfg, chain, s, evs).table ==> x in s.table
    ensures forall k :: k in DropOrphans(cfg, chain, s, evs).doomed ==>
      k in s.doomed || exists i :: 0 <= i < |evs| && !Canonical(chain, evs[i]) && KeyOf(evs[i].log) == k
    decreases |evs|
  {
    if evs != [] {
      var e := evs[0];
      KeepIs(s.table, s.doomed);
      assert e in evs;
      assert forall x :: x in evs <==> x == e || x in evs[1..];
      assert forall j :: 0 <= j < |evs[1..]| ==> evs[1..][j] == evs[j + 1];
      assert e !in evs[1..];
      assert DistinctKeys(evs[1..]);
      if Canonical(chain, e) {
        DropOrphansOk(cfg, chain, s, evs[1..]);
        DoomedTail(cfg, chain, s, s, evs);
      } else {
        DropOneOk(cfg, s, e);
        DropOrphansOk(cfg, chain, DropOne(cfg, s, e), evs[1..]);
        DoomedTail(cfg, chain, s, DropOne(cfg, s, e), evs);
      }
    }
  }

  lemma DoomedTail(cfg: Config, chain: seq<Block>, s: Scan, s1: Scan, evs: seq<Event>)
    requires evs != []
    requires forall k :: k in s1.doomed ==> k in s.doomed || (k == KeyOf(evs[0].log) && !Canonical(chain, evs[0]))
    requires forall k :: k in DropOrphans(cfg, chain, s1, evs[1..]).doomed ==>
      k in s1.doomed || exists i :: 0 <= i < |evs[1..]| && !Canonical(chain, evs[1..][i]) && KeyOf(evs[1..][i].log) == k
    ensures forall k :: k in DropOrphans(cfg, chain, s1, evs[1..]).doomed ==>
      k in s.doomed || exists i :: 0 <= i < |evs| && !Canonical(chain, evs[i]) && KeyOf(evs[i].log) == k
  {
    forall k | k in DropOrphans(cfg, chain, s1, evs[1..]).doomed && k !in s.doomed
      ensures exists i :: 0 <= i < |evs| && !Canonical(chain, evs[i]) && KeyOf(evs[i].log) == k
    {
      if k in s1.doomed {
        assert KeyOf(evs[0].log) == k;
      } else {
        var i :| 0 <= i < |evs[1..]| && !Canonical(chain, evs[1..][i]) && KeyOf(evs[1..][i].log) == k;
        assert evs[i + 1] == evs[1..][i];
      }
    }
  }

  // ---- applying -----------------------------------------------------------------------------------

  lemma {:induction false} ProcessedUpdate(cfg: Config, table: seq<Event>, i: nat, e: Event, d: nat)
    requires i < |table| && table[i].log == e.log && !table[i].processed && e.processed
    ensures Processed(cfg, table[i := e], d) == Processed(cfg, table, d) + Worth(cfg, e.log, d)
  {
    if i > 0 {
      assert table[i := e][1..] == table[1..][i - 1 := e];
      ProcessedUpdate(cfg, table[1..], i - 1, e, d);
    } else {
      assert table[i := e][1..] == table[1..];
    }
  }

  ghost predicate MirrorOk(cfg: Config, table: seq<Event>, ledger: seq<Transaction>) {
    && DistinctKeys(table) && LedgerOk(ledger)
    && forall d: nat :: Balance(ledger, Developer, d) == Processed(cfg, table, d)
  }

  /** Applying marks exactly the due rows, changes nothing else of a row, and keeps the mirror. */
  lemma {:induction false} ApplyDueOk(cfg: Config, latest: nat, table: seq<Event>, ledger: seq<Transaction>)
    requires MirrorOk(cfg, table, ledger)
    ensures
      var (t, l) := ApplyDue(cfg, latest, table, ledger);
      && MirrorOk(cfg, t, l)
      && |t| == |table|
      && forall i :: 0 <= i < |t| ==> t[i] == if Due(cfg, latest, table[i]) then Applied(table[i]) else table[i]
    decreases CountDue(cfg, latest, table)
  {
    var i := FirstDue(cfg, latest, table);
    if i < |table| {
      var e := Applied(table[i]);
      var t := EffectOf(cfg, table[i].log);
      var ledger' := ledger + if t.Some? then [t.value] else [];
      CountDueUpdate(cfg, latest, table, i, e);
      EffectMoves(cfg, table[i].log, 0);
      forall d: nat ensures Balance(ledger', Developer, d) == Processed(cfg, table[i := e], d) {
        ProcessedUpdate(cfg, table, i, e, d);
        EffectMoves(cfg, table[i].log, d);
        if t.Some? { BalanceAppend(ledger, t.value, Developer, d); } else { assert ledger' == ledger; }
      }
      ApplyDueOk(cfg, latest, table[i := e], ledger');
    }
  }

  // ---- ingesting ------------------------------------------------------------------------------------

  lemma {:induction false} EventsFromIs(chain: seq<Block>, from: nat)
    ensures forall x :: x in EventsFrom(chain, from) ==>
      from <= x.block && Canonical(chain, x) && x.log in chain[x.block].logs && !x.processed && !x.confirmed
    ensures forall b, i :: from <= b < |chain| && 0 <= i < |chain[b].logs| ==>
      Event(chain[b].logs[i], b, chain[b].hash, false, false) in EventsFrom(chain, from)
    decreases |chain| - from
  {
    if from < |chain| {
      EventsFromIs(chain, from + 1);
      var es := BlockEvents(chain[from], from);
      forall b, i | from <= b < |chain| && 0 <= i < |chain[b].logs|
        ensures Event(chain[b].logs[i], b, chain[b].hash, false, false) in EventsFrom(chain, from)
      {
        if b == from { assert es[i] in es; }
      }
    }
  }

  lemma {:induction false} EventsFromDistinct(chain: seq<Block>, from: nat)
    requires DistinctLogs(chain)
    ensures DistinctKeys(EventsFrom(chain, from))
    decreases |chain| - from
  {
    if from < |chain| {
      EventsFromDistinct(chain, from + 1);
      EventsFromIs(chain, from + 1);
      var es, rest := BlockEvents(chain[from], from), EventsFrom(chain, from + 1);
      var all: seq<Event> := es + rest;
      forall i, j | 0 <= i < j < |all| ensures KeyOf(all[i].log) != KeyOf(all[j].log) {
        if i < |es| && j >= |es| {
          var x := rest[j - |es|];
          assert x in rest;
          var k :| 0 <= k < |chain[x.block].logs| && chain[x.block].logs[k] == x.log;
          assert es[i].log == chain[from].logs[i];
        }
      }
    }
  }

  lemma {:induction false} UnseenIs(table: seq<Event>, found: seq<Event>)
    ensures forall x :: x in Unseen(table, found) <==> x in found && !HasKey(table, KeyOf(x.log))
    ensures DistinctKeys(found) ==> DistinctKeys(Unseen(table, found))
  {
    if found != [] {
      UnseenIs(table, found[1..]);
      var rest := Unseen(table, found[1..]);
      if DistinctKeys(found) {
        assert DistinctKeys(found[1..]);
        forall k | 0 <= k < |rest| ensures KeyOf(found[0].log) != KeyOf(rest[k].log) { assert rest[k] in found[1..]; }
      }
    }
  }

  lemma {:induction false} ProcessedAppend(cfg: Config, a: seq<Event>, b: seq<Event>, d: nat)
    requires forall x :: x in b ==> !x.processed
    ensures Processed(cfg, a + b, d) == Processed(cfg, a, d)
  {
    if a == [] {
      assert a + b == b;
      if b != [] {
        assert b[0] in b;
        ProcessedAppend(cfg, [], b[1..], d);
        assert [] + b[1..] == b[1..];
      }
    } else {
      assert (a + b)[1..] == a[1..] + b;
      ProcessedAppend(cfg, a[1..], b, d);
    }
  }

  lemma {:induction false} RecentIs(table: seq<Event>, start: nat)
    ensures forall x :: x in Recent(table, start) <==> x in table && x.block >= start
    ensures DistinctKeys(table) ==> DistinctKeys(Recent(table, start))
  {
    if table != [] {
      RecentIs(table[1..], start);
      var rest := Recent(table[1..], start);
      if DistinctKeys(table) {
        assert DistinctKeys(table[1..]);
        forall k | 0 <= k < |rest| ensures KeyOf(table[0].log) != KeyOf(rest[k].log) { assert rest[k] in table[1..]; }
      }
    }
  }
}
