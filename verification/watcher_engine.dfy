/** The watcher as it runs: a session over the event table, changed in place by its loops. */
module WatcherEngine {
  import opened Common
  import opened Ledger
  import opened Watcher
  import opened WatcherMirror

  lemma {:induction false} UnseenSnoc(table: seq<Event>, found: seq<Event>, e: Event)
    ensures Unseen(table, found + [e]) == Unseen(table, found) + if HasKey(table, KeyOf(e.log)) then [] else [e]
  {
    if found == [] {
      assert [e][1..] == [] && Unseen(table, []) == [];
    } else {
      assert (found + [e])[1..] == found[1..] + [e];
      UnseenSnoc(table, found[1..], e);
    }
  }

  /** There is nothing to find past the head. */
  lemma NothingPast(chain: seq<Block>)
    ensures forall from: nat :: from >= |chain| ==> EventsFrom(chain, from) == []
    ensures forall t :: Unseen(t, []) == []
  {}

  class ChainWatcher {
    const cfg: Config
    const book: Book
    var cursor: Option<nat>
    var table: seq<Event>
    /** Rows deleted in the session but not flushed: queries still return them. */
    var doomed: set<Key>
    /** Rows added in the session but not flushed. */
    var pending: seq<Event>

    ghost predicate Valid()
      reads this, book
    {
      book.Valid() && doomed == {} && pending == []
    }

    /** The committed state. */
    ghost function Committed(): Db
      reads this, book
    {
      Db(cursor, table, book.txs)
    }

    constructor (cfg: Config, book: Book)
      requires book.Valid()
      ensures Valid() && this.cfg == cfg && this.book == book
      ensures Committed() == Db(None, [], book.txs)
    {
      this.cfg, this.book := cfg, book;
      cursor, table, doomed, pending := None, [], {}, [];
    }

    method Flush()
      modifies this`table, this`doomed, this`pending
      ensures table == Keep(old(table), old(doomed)) + old(pending)
      ensures doomed == {} && pending == []
    {
      table := Keep(table, doomed) + pending;
      doomed, pending := {}, [];
    }

    /** Posting flushes the session first. */
    method Post(t: Transaction)
      requires book.Valid() && Balanced(t.postings)
      modifies this`table, this`doomed, this`pending, book
      ensures book.Valid() && book.txs == old(book.txs) + [t]
      ensures table == Keep(old(table), old(doomed)) + old(pending)
      ensures doomed == {} && pending == []
    {
      var ok := book.PostTransaction(t);
      Flush();
    }

    /** Reverse an orphan's effect if it was applied, then delete its row. */
    method Drop(e: Event)
      requires book.Valid() && pending == []
      modifies this`table, this`doomed, this`pending, book
      ensures book.Valid() && pending == []
      ensures Scan(table, doomed, book.txs) == old(DropOne(cfg, Scan(table, doomed, book.txs), e))
    {
      var t := if e.processed then ReversalOf(cfg, e.log) else None;
      if t.Some? {
        ReversalMoves(cfg, e.log, 0);
        assert Keep(table, doomed) + pending == Keep(table, doomed);
        Post(t.value);
      }
      doomed := doomed + {KeyOf(e.log)};
    }

    method HandleReorg(chain: seq<Block>, start: nat)
      requires book.Valid() && pending == []
      modifies this`table, this`doomed, this`pending, book
      ensures book.Valid() && pending == []
      ensures Scan(table, doomed, book.txs) ==
              old(DropOrphans(cfg, chain, Scan(table, doomed, book.txs), Recent(table, start)))
    {
      var events := Recent(table, start);
      var canonical: map<nat, Option<Hash>> := map[];
      for i := 0 to |events|
        invariant book.Valid() && pending == []
        invariant forall n :: n in canonical ==> canonical[n] == if n < |chain| then Some(chain[n].hash) else None
        invariant DropOrphans(cfg, chain, Scan(table, doomed, book.txs), events[i..]) ==
                  old(DropOrphans(cfg, chain, Scan(table, doomed, book.txs), Recent(table, start)))
      {
        var e := events[i];
        assert events[i..][1..] == events[i + 1..];
        if e.block !in canonical {
          canonical := canonical[e.block := if e.block < |chain| then Some(chain[e.block].hash) else None];
        }
        if canonical[e.block] != Some(e.hash) {
          Drop(e);
        }
      }
      assert events[|events|..] == [];
    }

    method Ingest(chain: seq<Block>, from: nat)
      requires pending == []
      modifies this`pending
      ensures pending == Unseen(table, EventsFrom(chain, from))
    {
      var found := EventsFrom(chain, from);
      for i := 0 to |found|
        invariant pending == Unseen(table, found[..i])
      {
        assert found[..i + 1] == found[..i] + [found[i]];
        UnseenSnoc(table, found[..i], found[i]);
        if !HasKey(table, KeyOf(found[i].log)) {
          pending := pending + [found[i]];
        }
      }
      assert found[..|found|] == found;
    }

    /** Post a final event's effect, if it has one, and mark its row. */
    method Apply(i: nat)
      requires Valid() && i < |table|
      modifies this`table, this`doomed, this`pending, book
      ensures Valid() && table == old(table[i := Applied(table[i])])
      ensures
        var t := old(EffectOf(cfg, table[i].log));
        book.txs == old(book.txs) + if t.Some? then [t.value] else []
    {
      var e := table[i];
      var t := EffectOf(cfg, e.log);
      if t.Some? {
        EffectMoves(cfg, e.log, 0);
        KeepNothing(table);
        assert Keep(table, {}) + [] == table;
        Post(t.value);
      } else {
        assert book.txs + [] == book.txs;
      }
      table := table[i := Applied(e)];
    }

    method ApplyConfirmed(latest: nat)
      requires Valid()
      modifies this`table, this`doomed, this`pending, book
      ensures Valid()
      ensures (table, book.txs) == old(ApplyDue(cfg, latest, table, book.txs))
    {
      var i := FirstDue(cfg, latest, table);
      while i < |table|
        invariant Valid() && i == FirstDue(cfg, latest, table)
        invariant ApplyDue(cfg, latest, table, book.txs) == old(ApplyDue(cfg, latest, table, book.txs))
        decreases CountDue(cfg, latest, table)
      {
        CountDueUpdate(cfg, latest, table, i, Applied(table[i]));
        Apply(i);
        i := FirstDue(cfg, latest, table);
      }
    }

    /** One scan inside a transaction: all of it when it commits, nothing when it does not. */
    method Tick(chain: seq<Block>, commits: bool)
      requires Valid() && chain != []
      modifies this, book
      ensures Valid()
      ensures Committed() == if commits then old(DoTick(cfg, chain, Committed())) else old(Committed())
    {
      hide ApplyDue, DropOrphans, Recent, WindowStart, FromBlock, EventsFrom, Unseen, Keep, LedgerOk;
      NothingPast(chain);
      var before, rows, posted := cursor, table, book.txs;
      var latest := |chain| - 1;
      var last := CursorAt(cfg, chain, Db(cursor, table, book.txs));
      HandleReorg(chain, WindowStart(cfg, last));
      if FromBlock(cfg, last) <= latest {
        Ingest(chain, FromBlock(cfg, last));
        cursor := Some(latest);
      } else {
        cursor := Some(last);
      }
      Flush();
      ApplyConfirmed(latest);
      if !commits {
        cursor, table := before, rows;
        book.txs := posted;
      }
    }
  }
}
