/**
 Stake and disputes: a slash is held, not burned, until a ruling burns it or gives it back.
 Steps are the committed operations on one ledger and one table of disputes.
 */
module Disputes {
  import opened Common
  import opened Ledger

  datatype Ruling = Open | UnderReview | Upheld | Overturned

  datatype Dispute = Dispute(provider: nat, amount: nat, state: Ruling, window: Option<int>)

  datatype World = World(ledger: seq<Transaction>, disputes: seq<Dispute>)

  datatype Step =
    | DepositStake(provider: nat, amount: nat)
    | SlashStake(provider: nat, amount: nat)
    | OpenDispute(provider: nat, amount: nat, window: int)
    | Contest(dispute: nat, now: int)
    | Resolve(dispute: nat, upheld: bool)

  predicate Settled(d: Dispute) { d.state == Upheld || d.state == Overturned }

  function StakeOf(l: seq<Transaction>, p: nat): int { Balance(l, Stake, p) }

  /** How much of a stake a slash takes: never more than there is. */
  function Capped(l: seq<Transaction>, p: nat, amount: nat): int { Min(amount, StakeOf(l, p)) }

  function DepositTx(p: nat, amount: nat): Transaction {
    Transfer(StakeDeposit, None, Protocol, None, Stake, Some(p), amount)
  }

  function SlashTx(p: nat, amount: int): Transaction {
    Transfer(DirectSlash, None, Stake, Some(p), Protocol, None, amount)
  }

  function HoldTx(p: nat, amount: int): Transaction {
    Transfer(SlashHold, None, Stake, Some(p), Disputed, Some(p), amount)
  }

  function RulingTx(p: nat, amount: int, upheld: bool): Transaction {
    if upheld then Transfer(SlashConfirmed, None, Disputed, Some(p), Protocol, None, amount)
    else Transfer(SlashReversed, None, Disputed, Some(p), Stake, Some(p), amount)
  }

  function DoOpen(w: World, p: nat, amount: nat, window: int): World {
    var held := Capped(w.ledger, p, amount);
    if held <= 0 then w.(disputes := w.disputes + [Dispute(p, 0, Open, Some(window))])
    else World(w.ledger + [HoldTx(p, held)], w.disputes + [Dispute(p, held, Open, Some(window))])
  }

  predicate WindowOpen(d: Dispute, now: int) { d.window.Some? && now < d.window.value }

  function DoContest(w: World, i: nat, now: int): World {
    if i >= |w.disputes| || w.disputes[i].state != Open || !WindowOpen(w.disputes[i], now) then w
    else w.(disputes := w.disputes[i := w.disputes[i].(state := UnderReview)])
  }

  function DoResolve(w: World, i: nat, upheld: bool): World {
    if i >= |w.disputes| || Settled(w.disputes[i]) then w
    else
      var d := w.disputes[i];
      World(if d.amount == 0 then w.ledger else w.ledger + [RulingTx(d.provider, d.amount, upheld)],
            w.disputes[i := d.(state := if upheld then Upheld else Overturned)])
  }

  function DoSlash(w: World, p: nat, amount: nat): World {
    var slashed := Capped(w.ledger, p, amount);
    if slashed <= 0 then w else w.(ledger := w.ledger + [SlashTx(p, slashed)])
  }

  function Next(w: World, s: Step): World {
    match s
    case DepositStake(p, amount) => w.(ledger := w.ledger + [DepositTx(p, amount)])
    case SlashStake(p, amount) => DoSlash(w, p, amount)
    case OpenDispute(p, amount, window) => DoOpen(w, p, amount, window)
    case Contest(i, now) => DoContest(w, i, now)
    case Resolve(i, upheld) => DoResolve(w, i, upheld)
  }

  function Run(w: World, steps: seq<Step>): World
    decreases |steps|
  {
    if steps == [] then w else Run(Next(w, steps[0]), steps[1..])
  }

  const EMPTY := World([], [])

  // ---- the invariant ------------------------------------------------------------------------

  ghost function HeldFor(p: nat): Dispute -> int {
    (d: Dispute) => if d.provider == p && !Settled(d) then d.amount else 0
  }

  ghost function RuledFor(p: nat, r: Ruling): Dispute -> int {
    (d: Dispute) => if d.provider == p && d.state == r then d.amount else 0
  }

  /** What left the system: direct slashes and upheld disputes. */
  function Burned(l: seq<Transaction>, p: nat): int {
    -Posted(l, DirectSlash, Stake, p) - Posted(l, SlashConfirmed, Disputed, p)
  }

  ghost predicate ProviderOk(w: World, p: nat) {
    && StakeOf(w.ledger, p) >= 0
    && Balance(w.ledger, Disputed, p) == Sum(w.disputes, HeldFor(p))
    && StakeOf(w.ledger, p) + Balance(w.ledger, Disputed, p) + Burned(w.ledger, p) ==
      Posted(w.ledger, StakeDeposit, Stake, p)
    && -Posted(w.ledger, SlashConfirmed, Disputed, p) == Sum(w.disputes, RuledFor(p, Upheld))
    && Posted(w.ledger, SlashReversed, Stake, p) == Sum(w.disputes, RuledFor(p, Overturned))
  }

  ghost predicate Inv(w: World) { LedgerOk(w.ledger) && forall p: nat :: ProviderOk(w, p) }

  /** How one transfer changes everything the invariant speaks of. */
  lemma Move(l: seq<Transaction>, t: Transaction, reason: Reason, src: Account, srcRef: Option<nat>, dst: Account,
      dstRef: Option<nat>, amount: int, p: nat)
    requires t == Transfer(reason, None, src, srcRef, dst, dstRef, amount)
    ensures Balanced(t.postings)
    ensures
      var stake := (if dst == Stake && dstRef == Some(p) then amount else 0)
        - (if src == Stake && srcRef == Some(p) then amount else 0);
      var held := (if dst == Disputed && dstRef == Some(p) then amount else 0)
        - (if src == Disputed && srcRef == Some(p) then amount else 0);
      && StakeOf(l + [t], p) == StakeOf(l, p) + stake
      && Balance(l + [t], Disputed, p) == Balance(l, Disputed, p) + held
      && (forall r :: Posted(l + [t], r, Stake, p) == Posted(l, r, Stake, p) + if r == reason then stake else 0)
      && (forall r :: Posted(l + [t], r, Disputed, p) == Posted(l, r, Disputed, p) + if r == reason then held else 0)
  {
    hide Balance, Moved, Posted, Balanced;
    TransferMoves(t, reason, None, src, srcRef, dst, dstRef, amount, Stake, p);
    TransferMoves(t, reason, None, src, srcRef, dst, dstRef, amount, Disputed, p);
    BalanceAppend(l, t, Stake, p);
    BalanceAppend(l, t, Disputed, p);
    forall r
      ensures Posted(l + [t], r, Stake, p) ==
        Posted(l, r, Stake, p) + if r == t.reason then Moved(t.postings, Stake, p) else 0
      ensures Posted(l + [t], r, Disputed, p) ==
        Posted(l, r, Disputed, p) + if r == t.reason then Moved(t.postings, Disputed, p) else 0
    {
      PostedAppend(l, t, r, Stake, p);
      PostedAppend(l, t, r, Disputed, p);
    }
  }

  lemma DepositInv(w: World, p: nat, amount: nat)
    requires Inv(w)
    ensures Inv(Next(w, DepositStake(p, amount)))
  {
    hide Balance, Posted, Balanced, Sum, Transfer;
    var w' := Next(w, DepositStake(p, amount));
    Move(w.ledger, DepositTx(p, amount), StakeDeposit, Protocol, None, Stake, Some(p), amount, p);
    forall q: nat ensures ProviderOk(w', q) {
      assert ProviderOk(w, q);
      Move(w.ledger, DepositTx(p, amount), StakeDeposit, Protocol, None, Stake, Some(p), amount, q);
    }
  }

  lemma SlashInv(w: World, p: nat, amount: nat)
    requires Inv(w)
    ensures Inv(DoSlash(w, p, amount))
  {
    hide Balance, Posted, Balanced, Sum, Transfer;
    var w', taken := DoSlash(w, p, amount), Capped(w.ledger, p, amount);
    if taken > 0 {
      Move(w.ledger, SlashTx(p, taken), DirectSlash, Stake, Some(p), Protocol, None, taken, p);
      forall q: nat ensures ProviderOk(w', q) {
        assert ProviderOk(w, q);
        Move(w.ledger, SlashTx(p, taken), DirectSlash, Stake, Some(p), Protocol, None, taken, q);
      }
    }
  }

  lemma OpenInv(w: World, p: nat, amount: nat, window: int)
    requires Inv(w)
    ensures Inv(DoOpen(w, p, amount, window))
  {
    hide Balance, Posted, Balanced, Sum, Transfer;
    var w', held := DoOpen(w, p, amount, window), Capped(w.ledger, p, amount);
    var d := w'.disputes[|w.disputes|];
    if held > 0 { Move(w.ledger, HoldTx(p, held), SlashHold, Stake, Some(p), Disputed, Some(p), held, p); }
    forall q: nat ensures ProviderOk(w', q) {
      assert ProviderOk(w, q);
      SumAppend(w.disputes, d, HeldFor(q));
      SumAppend(w.disputes, d, RuledFor(q, Upheld));
      SumAppend(w.disputes, d, RuledFor(q, Overturned));
      if held > 0 { Move(w.ledger, HoldTx(p, held), SlashHold, Stake, Some(p), Disputed, Some(p), held, q); }
    }
  }

  lemma ContestInv(w: World, i: nat, now: int)
    requires Inv(w)
    ensures Inv(DoContest(w, i, now))
  {
    hide Balance, Posted, Balanced, Sum, Transfer;
    var w' := DoContest(w, i, now);
    if w' != w {
      forall q: nat ensures ProviderOk(w', q) {
        assert ProviderOk(w, q);
        SumUpdate(w.disputes, i, w'.disputes[i], HeldFor(q));
        SumUpdate(w.disputes, i, w'.disputes[i], RuledFor(q, Upheld));
        SumUpdate(w.disputes, i, w'.disputes[i], RuledFor(q, Overturned));
      }
    }
  }

  lemma RulingMoves(l: seq<Transaction>, p: nat, amount: nat, upheld: bool, q: nat)
    ensures
      var t := RulingTx(p, amount, upheld);
      var mine := if p == q then amount else 0;
      && Balanced(t.postings)
      && StakeOf(l + [t], q) == StakeOf(l, q) + (if upheld then 0 else mine)
      && Balance(l + [t], Disputed, q) == Balance(l, Disputed, q) - mine
      && Posted(l + [t], SlashConfirmed, Disputed, q) ==
        Posted(l, SlashConfirmed, Disputed, q) - (if upheld then mine else 0)
      && Posted(l + [t], SlashReversed, Stake, q) == Posted(l, SlashReversed, Stake, q) + (if upheld then 0 else mine)
      && Posted(l + [t], DirectSlash, Stake, q) == Posted(l, DirectSlash, Stake, q)
      && Posted(l + [t], StakeDeposit, Stake, q) == Posted(l, StakeDeposit, Stake, q)
  {
    hide Balance, Posted, Balanced;
    if upheld {
      Move(l, RulingTx(p, amount, upheld), SlashConfirmed, Disputed, Some(p), Protocol, None, amount, q);
    } else {
      Move(l, RulingTx(p, amount, upheld), SlashReversed, Disputed, Some(p), Stake, Some(p), amount, q);
    }
  }

  lemma ResolveInv(w: World, i: nat, upheld: bool)
    requires Inv(w)
    ensures Inv(DoResolve(w, i, upheld))
  {
    hide Balance, Posted, Balanced, Sum, RulingTx;
    var w' := DoResolve(w, i, upheld);
    if w' != w {
      var d := w.disputes[i];
      RulingMoves(w.ledger, d.provider, d.amount, upheld, d.provider);
      forall q: nat ensures ProviderOk(w', q) {
        assert ProviderOk(w, q);
        SumUpdate(w.disputes, i, w'.disputes[i], HeldFor(q));
        SumUpdate(w.disputes, i, w'.disputes[i], RuledFor(q, Upheld));
        SumUpdate(w.disputes, i, w'.disputes[i], RuledFor(q, Overturned));
        RulingMoves(w.ledger, d.provider, d.amount, upheld, q);
      }
    }
  }

  lemma StepInv(w: World, s: Step)
    requires Inv(w)
    ensures Inv(Next(w, s))
  {
    hide Inv, DoSlash, DoOpen, DoContest, DoResolve;
    match s {
      case DepositStake(p, amount) => DepositInv(w, p, amount);
      case SlashStake(p, amount) => SlashInv(w, p, amount);
      case OpenDispute(p, amount, window) => OpenInv(w, p, amount, window);
      case Contest(i, now) => ContestInv(w, i, now);
      case Resolve(i, upheld) => ResolveInv(w, i, upheld);
    }
  }

  lemma {:induction false} RunInv(w: World, steps: seq<Step>)
    requires Inv(w)
    ensures Inv(Run(w, steps))
    decreases |steps|
  {
    hide Inv, Next;
    if steps != [] {
      StepInv(w, steps[0]);
      RunInv(Next(w, steps[0]), steps[1..]);
    }
  }

  /**
   Over every run: stake is never negative, the disputed balance is the sum of the unresolved
   disputes, stake, disputed and burned add up to what was deposited, and what rulings burned
   or gave back is exactly the upheld or overturned disputes, each counted once.
   */
  lemma StakeConserved(steps: seq<Step>, p: nat)
    ensures LedgerOk(Run(EMPTY, steps).ledger) && ProviderOk(Run(EMPTY, steps), p)
  {
    hide Run;
    assert Inv(EMPTY);
    RunInv(EMPTY, steps);
  }

  // ---- what each operation takes and gives -------------------------------------------------------------

  /** A deposit adds its amount to the provider's own stake, and moves nothing else. */
  lemma DepositStakes(w: World, p: nat, amount: nat, q: nat)
    ensures
      var w' := Next(w, DepositStake(p, amount));
      && w'.disputes == w.disputes
      && StakeOf(w'.ledger, q) == StakeOf(w.ledger, q) + (if p == q then amount else 0)
      && Balance(w'.ledger, Disputed, q) == Balance(w.ledger, Disputed, q) &&
        Burned(w'.ledger, q) == Burned(w.ledger, q)
  {
    hide Balance, Posted, Transfer, Moved;
    Move(w.ledger, DepositTx(p, amount), StakeDeposit, Protocol, None, Stake, Some(p), amount, q);
  }

  /** A slash takes the full amount when the stake covers it and all the stake otherwise, from nobody else. */
  lemma SlashTakes(steps: seq<Step>, p: nat, amount: nat, q: nat)
    ensures
      var w := Run(EMPTY, steps);
      var w', stake := Next(w, SlashStake(p, amount)), StakeOf(w.ledger, p);
      var taken := if p != q then 0 else if amount <= stake then amount else stake;
      && w'.disputes == w.disputes
      && StakeOf(w'.ledger, q) == StakeOf(w.ledger, q) - taken
      && Burned(w'.ledger, q) == Burned(w.ledger, q) + taken
      && Balance(w'.ledger, Disputed, q) == Balance(w.ledger, Disputed, q)
  {
    hide Balance, Posted, Run, Transfer, Moved;
    StakeConserved(steps, p);
    var w := Run(EMPTY, steps);
    var taken := Capped(w.ledger, p, amount);
    Move(w.ledger, SlashTx(p, taken), DirectSlash, Stake, Some(p), Protocol, None, taken, q);
  }

  /** Opening a dispute holds the full amount when the stake covers it and all the stake otherwise. */
  lemma OpenHolds(steps: seq<Step>, p: nat, amount: nat, window: int, q: nat)
    ensures
      var w := Run(EMPTY, steps);
      var w', stake := Next(w, OpenDispute(p, amount, window)), StakeOf(w.ledger, p);
      var taken := if amount <= stake then amount else stake;
      && taken >= 0 && w'.disputes == w.disputes + [Dispute(p, taken, Open, Some(window))]
      && StakeOf(w'.ledger, q) == StakeOf(w.ledger, q) - (if p == q then taken else 0)
      && Balance(w'.ledger, Disputed, q) == Balance(w.ledger, Disputed, q) + (if p == q then taken else 0)
      && Burned(w'.ledger, q) == Burned(w.ledger, q)
  {
    hide Balance, Posted, Run, Transfer, Moved;
    StakeConserved(steps, p);
    var w := Run(EMPTY, steps);
    var taken := Capped(w.ledger, p, amount);
    Move(w.ledger, HoldTx(p, taken), SlashHold, Stake, Some(p), Disputed, Some(p), taken, q);
  }

  /** A contest puts an open dispute under review, exactly before its window closes. */
  lemma ContestIff(w: World, i: nat, now: int)
    ensures
      var w' := Next(w, Contest(i, now));
      && w'.ledger == w.ledger && |w'.disputes| == |w.disputes|
      && (forall k :: 0 <= k < |w.disputes| && k != i ==> w'.disputes[k] == w.disputes[k])
      && (i < |w.disputes| ==>
        var d := w.disputes[i];
        w'.disputes[i] == if d.state == Open && d.window.Some? && now < d.window.value then d.(state := UnderReview)
          else d)
  {}

  /** A ruling burns the held stake or gives it back, once, contested or not. */
  lemma RulingPays(w: World, i: nat, upheld: bool, q: nat)
    requires i < |w.disputes|
    ensures
      var w', d := Next(w, Resolve(i, upheld)), w.disputes[i];
      var moved := if d.state != Upheld && d.state != Overturned && d.provider == q then d.amount else 0;
      && StakeOf(w'.ledger, q) == StakeOf(w.ledger, q) + (if upheld then 0 else moved)
      && Burned(w'.ledger, q) == Burned(w.ledger, q) + (if upheld then moved else 0)
      && Balance(w'.ledger, Disputed, q) == Balance(w.ledger, Disputed, q) - moved
      && w'.disputes == w.disputes[i := d.(state :=
        if d.state == Upheld || d.state == Overturned then d.state else if upheld then Upheld else Overturned)]
  {
    hide Balance, Posted, RulingTx;
    var d := w.disputes[i];
    RulingMoves(w.ledger, d.provider, d.amount, upheld, q);
    assert w.disputes[i := d] == w.disputes;
  }

  lemma StepKeeps(w: World, s: Step, i: nat)
    requires i < |w.disputes|
    ensures
      var w' := Next(w, s);
      && i < |w'.disputes| && w'.disputes[i].provider == w.disputes[i].provider
      && w'.disputes[i].amount == w.disputes[i].amount
      && (Settled(w.disputes[i]) ==> w'.disputes[i] == w.disputes[i])
  {
    hide Capped, RulingTx;
  }

  /** A ruling is final: a resolved dispute never changes again, and no dispute changes its amount. */
  lemma {:induction false} RulingFinal(w: World, steps: seq<Step>, i: nat)
    requires i < |w.disputes|
    ensures
      var w' := Run(w, steps);
      && i < |w'.disputes| && w'.disputes[i].provider == w.disputes[i].provider
      && w'.disputes[i].amount == w.disputes[i].amount
      && (Settled(w.disputes[i]) ==> w'.disputes[i] == w.disputes[i])
    decreases |steps|
  {
    hide Next;
    if steps != [] {
      StepKeeps(w, steps[0], i);
      RulingFinal(Next(w, steps[0]), steps[1..], i);
    }
  }

  // ---- the desk, changed in place ----------------------------------------------------------------

  class Desk {
    const book: Book
    var disputes: seq<Dispute>

    ghost function State(): World
      reads this, book
    {
      World(book.txs, disputes)
    }

    constructor (book: Book)
      ensures this.book == book && disputes == []
    {
      this.book, disputes := book, [];
    }

    method Deposit(p: nat, amount: nat)
      requires book.Valid()
      modifies book
      ensures book.Valid() && State() == old(Next(State(), DepositStake(p, amount)))
    {
      Move(book.txs, DepositTx(p, amount), StakeDeposit, Protocol, None, Stake, Some(p), amount, p);
      var ok := book.PostTransaction(DepositTx(p, amount));
    }

    method Slash(p: nat, amount: nat) returns (slashed: nat)
      requires book.Valid()
      modifies book
      ensures book.Valid() && State() == old(Next(State(), SlashStake(p, amount)))
      ensures slashed == if old(Capped(book.txs, p, amount)) > 0 then old(Capped(book.txs, p, amount)) else 0
    {
      var current := StakeOf(book.txs, p);
      if amount < current { current := amount; }
      if current <= 0 {
        return 0;
      }
      slashed := current;
      Move(book.txs, SlashTx(p, slashed), DirectSlash, Stake, Some(p), Protocol, None, slashed, p);
      var ok := book.PostTransaction(SlashTx(p, slashed));
    }

    method OpenCase(p: nat, amount: nat, window: int) returns (i: nat)
      requires book.Valid()
      modifies this, book
      ensures book.Valid() && State() == old(Next(State(), OpenDispute(p, amount, window)))
      ensures i == old(|disputes|)
    {
      i := |disputes|;
      var held := StakeOf(book.txs, p);
      if amount < held { held := amount; }
      if held > 0 {
        Move(book.txs, HoldTx(p, held), SlashHold, Stake, Some(p), Disputed, Some(p), held, p);
        var ok := book.PostTransaction(HoldTx(p, held));
        disputes := disputes + [Dispute(p, held, Open, Some(window))];
      } else {
        disputes := disputes + [Dispute(p, 0, Open, Some(window))];
      }
    }

    method ContestCase(i: nat, now: int) returns (accepted: bool)
      requires i < |disputes|
      modifies this`disputes
      ensures State() == old(Next(State(), Contest(i, now)))
      ensures accepted <==> old(disputes[i]).state == Open && WindowOpen(old(disputes[i]), now)
    {
      accepted := disputes[i].state == Open && WindowOpen(disputes[i], now);
      if accepted {
        disputes := disputes[i := disputes[i].(state := UnderReview)];
      }
    }

    method ResolveCase(i: nat, upheld: bool)
      requires book.Valid() && i < |disputes|
      modifies this`disputes, book
      ensures book.Valid() && State() == old(Next(State(), Resolve(i, upheld)))
    {
      hide Balance, Posted, Balanced, RulingTx;
      var d := disputes[i];
      if d.state == Upheld || d.state == Overturned {
        return;
      }
      if d.amount > 0 {
        RulingMoves(book.txs, d.provider, d.amount, upheld, d.provider);
        var ok := book.PostTransaction(RulingTx(d.provider, d.amount, upheld));
      }
      disputes := disputes[i := d.(state := if upheld then Upheld else Overturned)];
    }
  }
}
