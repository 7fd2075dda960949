/**
 The double-entry ledger: append-only transactions, each a group of postings whose debits
 equal their credits. Balances are derived, never stored.
 */
module Ledger {
  import opened Common

  datatype Account = Developer | Provider | Protocol | Escrow | Stake | Disputed

  datatype Posting = Posting(account: Account, credit: bool, amount: int, ref: Option<nat>)

  datatype Reason =
    | ChainDeposit | ChainWithdraw | ReorgReverse
    | TopUp | InferenceHold | InferenceRelease | InferenceUsage
    | EscrowHold | JobSettle | JobRefund | DataCost
    | StakeDeposit | DirectSlash | SlashHold | SlashConfirmed | SlashReversed

  datatype Transaction = Transaction(reason: Reason, job: Option<nat>, postings: seq<Posting>)

  function Side(ps: seq<Posting>, credit: bool): int {
    if ps == [] then 0
    else (if ps[0].credit == credit then ps[0].amount else 0) + Side(ps[1..], credit)
  }

  /** Whether `post_transaction` accepts a posting list. */
  predicate Balanced(ps: seq<Posting>) { ps != [] && Side(ps, false) == Side(ps, true) }

  /** What a posting adds to one account of one owner. */
  function Effect(p: Posting, a: Account, ref: nat): int {
    if p.account == a && p.ref == Some(ref) then (if p.credit then p.amount else -p.amount) else 0
  }

  function Moved(ps: seq<Posting>, a: Account, ref: nat): int {
    if ps == [] then 0 else Effect(ps[0], a, ref) + Moved(ps[1..], a, ref)
  }

  /** Credits less debits of one owner's account. */
  function Balance(l: seq<Transaction>, a: Account, ref: nat): int {
    if l == [] then 0
    else Balance(l[..|l| - 1], a, ref) + Moved(l[|l| - 1].postings, a, ref)
  }

  /** The part of a balance posted for one reason. */
  function Posted(l: seq<Transaction>, reason: Reason, a: Account, ref: nat): int {
    if l == [] then 0
    else Posted(l[..|l| - 1], reason, a, ref) + if l[|l| - 1].reason == reason then Moved(l[|l| - 1].postings, a, ref)
      else 0
  }

  /** Credits less debits over every account there is. */
  function Everything(l: seq<Transaction>): int {
    if l == [] then 0
    else Everything(l[..|l| - 1]) + Side(l[|l| - 1].postings, true) - Side(l[|l| - 1].postings, false)
  }

  ghost predicate LedgerOk(l: seq<Transaction>) {
    forall i :: 0 <= i < |l| ==> Balanced(l[i].postings)
  }

  function Debit(a: Account, amount: int, ref: Option<nat>): Posting { Posting(a, false, amount, ref) }

  function Credit(a: Account, amount: int, ref: Option<nat>): Posting { Posting(a, true, amount, ref) }

  /** A two-legged transfer out of one account into another. */
  function Transfer(reason: Reason, job: Option<nat>, src: Account, srcRef: Option<nat>, dst: Account,
      dstRef: Option<nat>, amount: int): Transaction
  {
    Transaction(reason, job, [Debit(src, amount, srcRef), Credit(dst, amount, dstRef)])
  }

  lemma BalanceAppend(l: seq<Transaction>, t: Transaction, a: Account, ref: nat)
    ensures Balance(l + [t], a, ref) == Balance(l, a, ref) + Moved(t.postings, a, ref)
  {
    assert (l + [t])[..|l + [t]| - 1] == l;
  }

  lemma PostedAppend(l: seq<Transaction>, t: Transaction, reason: Reason, a: Account, ref: nat)
    ensures Posted(l + [t], reason, a, ref) ==
      Posted(l, reason, a, ref) + if t.reason == reason then Moved(t.postings, a, ref) else 0
  {
    assert (l + [t])[..|l + [t]| - 1] == l;
  }

  /** One more leg in front of a posting list. */
  lemma Leg(p: Posting, rest: seq<Posting>, a: Account, ref: nat)
    ensures Moved([p] + rest, a, ref) == Effect(p, a, ref) + Moved(rest, a, ref)
    ensures Side([p] + rest, true) == (if p.credit then p.amount else 0) + Side(rest, true)
    ensures Side([p] + rest, false) == (if p.credit then 0 else p.amount) + Side(rest, false)
  {
    assert ([p] + rest)[1..] == rest;
  }

  lemma TransferMoves(t: Transaction, reason: Reason, job: Option<nat>, src: Account, srcRef: Option<nat>, dst: Account,
      dstRef: Option<nat>, amount: int, a: Account, ref: nat)
    requires t == Transfer(reason, job, src, srcRef, dst, dstRef, amount)
    ensures Balanced(t.postings)
    ensures Moved(t.postings, a, ref) ==
            (if dst == a && dstRef == Some(ref) then amount else 0)
              - (if src == a && srcRef == Some(ref) then amount else 0)
  {
    var d, c := Debit(src, amount, srcRef), Credit(dst, amount, dstRef);
    Leg(c, [], a, ref);
    Leg(d, [c], a, ref);
    assert t.postings == [d] + [c] && [c] + [] == [c];
  }

  /** A ledger of balanced transactions creates and destroys nothing, whatever it records. */
  lemma {:induction false} NothingCreated(l: seq<Transaction>)
    requires LedgerOk(l)
    ensures Everything(l) == 0
    decreases |l|
  {
    if l != [] {
      NothingCreated(l[..|l| - 1]);
      assert Balanced(l[|l| - 1].postings);
    }
  }

  /** The ledger table, written only through `PostTransaction`. */
  class Book {
    var txs: seq<Transaction>

    ghost predicate Valid()
      reads this
    {
      LedgerOk(txs)
    }

    constructor ()
      ensures Valid() && txs == []
    {
      txs := [];
    }

    /** Append a transaction, or refuse it untouched when it is empty or does not balance. */
    method PostTransaction(t: Transaction) returns (ok: bool)
      requires Valid()
      modifies this
      ensures Valid()
      ensures ok <==> Balanced(t.postings)
      ensures ok <==> t.postings != [] && Side(t.postings, false) == Side(t.postings, true)
      ensures txs == if ok then old(txs) + [t] else old(txs)
    {
      var debits, credits := 0, 0;
      for i := 0 to |t.postings|
        invariant debits + Side(t.postings[i..], false) == Side(t.postings, false)
        invariant credits + Side(t.postings[i..], true) == Side(t.postings, true)
        invariant unchanged(this)
      {
        assert t.postings[i..][1..] == t.postings[i + 1..];
        if t.postings[i].credit {
          credits := credits + t.postings[i].amount;
        } else {
          debits := debits + t.postings[i].amount;
        }
      }
      ok := t.postings != [] && debits == credits;
      if ok {
        txs := txs + [t];
      }
    }

    /** The disaster-recovery check: indices of the transactions whose sides differ. */
    method VerifyIntegrity() returns (bad: seq<nat>)
      ensures forall i: nat :: i in bad <==> i < |txs| && Side(txs[i].postings, false) != Side(txs[i].postings, true)
      ensures bad == [] <==> forall i :: 0 <= i < |txs| ==> Side(txs[i].postings, false) == Side(txs[i].postings, true)
    {
      bad := [];
      for i := 0 to |txs|
        invariant forall k: nat :: k in bad <==> k < i && Side(txs[k].postings, false) != Side(txs[k].postings, true)
      {
        if Side(txs[i].postings, false) != Side(txs[i].postings, true) {
          bad := bad + [i];
        }
      }
      assert bad != [] ==> bad[0] in bad;
    }
  }
}
