/** The billing operations and the request handlers, posting through database sessions. */
module BillingEngine {
  import opened Common
  import opened Money
  import opened Ledger
  import opened NodeUsage
  import opened Streaming
  import opened Billing
  import opened BillingTheorems

  /** A database session: it sees what is committed and what it has posted itself. */
  class Session {
    const book: Book
    var posted: seq<Transaction>

    ghost predicate Valid()
      reads this, book
    {
      book.Valid() && LedgerOk(posted)
    }

    ghost function Seen(): seq<Transaction>
      reads this, book
    {
      book.txs + posted
    }

    constructor (book: Book)
      requires book.Valid()
      ensures Valid() && this.book == book && posted == [] && Seen() == book.txs
    {
      this.book, posted := book, [];
    }

    method Post(t: Transaction)
      requires Valid() && Balanced(t.postings)
      modifies this`posted
      ensures Valid() && Seen() == old(Seen()) + [t]
    {
      posted := posted + [t];
    }

    method Commit()
      requires Valid()
      modifies this`posted, book
      ensures Valid() && posted == [] && book.txs == old(Seen())
    {
      book.txs := book.txs + posted;
      posted := [];
    }

    /** What closing an uncommitted session does. */
    method Rollback()
      requires Valid()
      modifies this`posted
      ensures Valid() && posted == []
    {
      posted := [];
    }
  }

  /** Reserve the worst case and commit it; none when the balance is short. */
  method ReserveBalance(s: Session, dev: nat, raw: real) returns (held: Option<nat>)
    requires s.Valid() && s.posted == []
    modifies s, s.book
    ensures s.Valid() && s.posted == []
    ensures
      var amount := AtLeastZero(Quantize(raw));
      && (held.None? <==> amount > 0 && old(Balance(s.book.txs, Developer, dev)) < amount)
      && (held.Some? ==> held.value == amount)
      && s.book.txs == old(s.book.txs) + if held.Some? && amount > 0 then [HoldTx(dev, amount)] else []
  {
    assert s.Seen() == s.book.txs && s.book.txs + [] == s.book.txs;
    var amount := Quantize(raw);
    if amount <= 0 {
      return Some(0);
    }
    if Balance(s.book.txs + s.posted, Developer, dev) < amount {
      return None;
    }
    HoldShift(s.book.txs, dev, amount, dev);
    s.Post(HoldTx(dev, amount));
    s.Commit();
    held := Some(amount);
  }

  /** Post the return of a positive hold. */
  method ReturnReservation(s: Session, dev: nat, held: nat)
    requires s.Valid()
    modifies s
    ensures s.Valid() && s.Seen() == ReturnHold(old(s.Seen()), dev, held)
  {
    if held > 0 {
      ReturnPostings(dev, held, Developer, dev);
      s.Post(ReturnTx(dev, held));
    }
  }

  /** Post the charge for a request; none and nothing posted when the balance is short. */
  method ChargeUsage(s: Session, bps: nat, dev: nat, provider: nat, raw: real) returns (cost: Option<nat>)
    requires s.Valid() && bps <= BPS
    modifies s
    ensures s.Valid()
    ensures
      var c := Charge(bps, old(s.Seen()), dev, provider, raw);
      && cost == (if c.Some? then Some(c.value.1) else None)
      && s.Seen() == if c.Some? then c.value.0 else old(s.Seen())
  {
    var amount := Quantize(raw);
    if amount <= 0 {
      return Some(0);
    }
    if Balance(s.book.txs + s.posted, Developer, dev) < amount {
      return None;
    }
    UsagePostings(bps, dev, provider, amount, Developer, dev);
    s.Post(UsageTx(bps, dev, provider, amount));
    cost := Some(amount);
  }

  /** Return the hold and charge, then commit; a charge that fails leaves the return posted but uncommitted. */
  method SettleReservation(s: Session, bps: nat, dev: nat, provider: nat, held: nat, raw: real)
    returns (cost: Option<nat>)
    requires s.Valid() && bps <= BPS && s.posted == []
    modifies s, s.book
    ensures s.Valid()
    ensures
      var back := ReturnHold(old(s.book.txs), dev, held);
      var c := Charge(bps, back, dev, provider, raw);
      && cost == (if c.Some? then Some(c.value.1) else None)
      && (c.Some? ==> s.posted == [] && s.book.txs == c.value.0)
      && (c.None? ==> s.Seen() == back && s.book.txs == old(s.book.txs))
  {
    assert s.Seen() == s.book.txs;
    ReturnReservation(s, dev, held);
    cost := ChargeUsage(s, bps, dev, provider, raw);
    if cost.Some? {
      s.Commit();
    }
  }

  /** Return the hold and commit, with whatever the session had posted before. */
  method ReleaseReservation(s: Session, dev: nat, held: nat)
    requires s.Valid()
    modifies s, s.book
    ensures s.Valid() && s.posted == [] && s.book.txs == ReturnHold(old(s.Seen()), dev, held)
  {
    ReturnReservation(s, dev, held);
    s.Commit();
  }

  /** A handler past its gate: settle what the node's reply prices, release on any other exit. */
  method Conclude(s: Session, bps: nat, dev: nat, held: nat, provider: nat, bill: Option<real>) returns (status: Status)
    requires s.Valid() && bps <= BPS && s.posted == []
    modifies s, s.book
    ensures s.Valid() && s.posted == []
    ensures (s.book.txs, status) ==
      Handle(bps, old(s.book.txs), dev, held, provider, if bill.Some? then Bill(bill.value) else Release)
  {
    hide Charge, ReturnHold;
    assert s.Seen() == s.book.txs;
    var settled := false;
    status := Released;
    if bill.Some? {
      var cost := SettleReservation(s, bps, dev, provider, held, bill.value);
      if cost.Some? {
        settled, status := true, Settled(provider, cost.value);
      } else {
        status := Twice;
      }
    }
    if !settled {
      ReleaseReservation(s, dev, held);
    }
  }

  /** Other sessions commit postings of their own. */
  method Meanwhile(book: Book, txs: seq<Transaction>)
    requires book.Valid() && LedgerOk(txs)
    modifies book
    ensures book.Valid() && book.txs == old(book.txs) + txs
  {
    book.txs := book.txs + txs;
  }

  /** The world in which a handler finishes: its own gate, then what others posted while the node worked. */
  function Gated(ledger: seq<Transaction>, dev: nat, r: Request, others: seq<Transaction>): World {
    var w := DoBegin(World(ledger, []), dev, r);
    if w.holds == [] then w else w.(ledger := w.ledger + others)
  }

  /**
   The unary chat handler; `reply` is none when no node was found or dispatch failed, `others`
   is what other sessions commit while it waits. None when the gate refuses.
   */
  method ChatCompletions(book: Book, bps: nat, dev: nat, t: Terms, provider: nat, reply: Option<map<string, Json>>,
      others: seq<Transaction>)
    returns (status: Option<Status>)
    requires book.Valid() && bps <= BPS && LedgerOk(others)
    modifies book
    ensures book.Valid()
    ensures
      var gated := Gated(old(book.txs), dev, Chat(t), others);
      var done := DoFinish(bps, gated, 0, provider, if reply.Some? then Replied(reply.value) else NotDispatched);
      book.txs == done.ledger && status == if done.holds == [] then None else Some(done.holds[0].status)
  {
    hide Quantize, WorstCase, ChatCost, UsageFrom, Charge, Balance, Handle;
    ghost var gated := Gated(book.txs, dev, Chat(t), others);
    var s := new Session(book);
    var held := ReserveBalance(s, dev, WorstCase(t));
    if held.None? {
      return None;
    }
    Meanwhile(book, others);
    assert gated == World(book.txs, [Hold(dev, Chat(t), held.value, Open)]);
    var bill := None;
    if reply.Some? {
      var usage := UsageFrom(reply.value, t.prompt, t.maxOutput);
      if usage.Some? {
        bill := Some(MinReal(ChatCost(t.spec, usage.value.prompt, usage.value.completion), WorstCase(t)));
      }
    }
    var r := Conclude(s, bps, dev, held.value, provider, bill);
    status := Some(r);
  }

  /** The image handler; `stored` is how many images came back and were kept. */
  method ImageGenerations(book: Book, bps: nat, dev: nat, spec: Spec, n: nat, provider: nat, stored: Option<nat>,
      others: seq<Transaction>)
    returns (status: Option<Status>)
    requires book.Valid() && bps <= BPS && LedgerOk(others)
    modifies book
    ensures book.Valid()
    ensures
      var gated := Gated(old(book.txs), dev, Image(spec, n), others);
      var done := DoFinish(bps, gated, 0, provider, if stored.Some? then Stored(stored.value) else NotDispatched);
      book.txs == done.ledger && status == if done.holds == [] then None else Some(done.holds[0].status)
  {
    hide Quantize, ImageCost, Charge, Balance, Handle;
    ghost var gated := Gated(book.txs, dev, Image(spec, n), others);
    var s := new Session(book);
    var held := ReserveBalance(s, dev, ImageCost(spec, n));
    if held.None? {
      return None;
    }
    Meanwhile(book, others);
    assert gated == World(book.txs, [Hold(dev, Image(spec, n), held.value, Open)]);
    var bill := None;
    if stored.Some? {
      var kept := if stored.value > n then n else stored.value;
      bill := Some(ImageCost(spec, kept));
    }
    var r := Conclude(s, bps, dev, held.value, provider, bill);
    status := Some(r);
  }
}
