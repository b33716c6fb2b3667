/** Double-entry postings and the append-only log of their entries.
    A balance is never stored: it is the sum of an account's entries. */
module Ledger {
  import opened Wrappers
  import Money

  datatype Entry = Entry(account: string, amount: int)

  datatype Posting = Posting(txId: string, entries: seq<Entry>)

  datatype Error =
    | NoTransaction
    | TooFewEntries(count: nat)
    | NoAccount(index: nat)
    | ZeroEntry(index: nat)
    | Unbalanced(sum: int)
    | Amount(cause: Money.Error)
    | SameAccount
    | FeeAboveRefund
    | RefundOutOfRange
    | CoverOutOfRange
    | DuplicateTransaction
    | CommitFailed

  // Folds over entries.

  function SumOf(entries: seq<Entry>): int {
    if entries == [] then 0 else entries[0].amount + SumOf(entries[1..])
  }

  /** What the entries do to one account; over the whole log, the account's balance. */
  function Delta(entries: seq<Entry>, account: string): int {
    if entries == [] then 0
    else (if entries[0].account == account then entries[0].amount else 0) + Delta(entries[1..], account)
  }

  lemma {:induction false} SumConcat(a: seq<Entry>, b: seq<Entry>)
    ensures SumOf(a + b) == SumOf(a) + SumOf(b)
  {
    if a == [] {
      assert a + b == b;
    } else {
      assert (a + b)[1..] == a[1..] + b;
      SumConcat(a[1..], b);
    }
  }

  lemma {:induction false} DeltaConcat(a: seq<Entry>, b: seq<Entry>, account: string)
    ensures Delta(a + b, account) == Delta(a, account) + Delta(b, account)
  {
    if a == [] {
      assert a + b == b;
    } else {
      assert (a + b)[1..] == a[1..] + b;
      DeltaConcat(a[1..], b, account);
    }
  }

  /** An account no entry names is left alone. */
  lemma {:induction false} DeltaElsewhere(entries: seq<Entry>, account: string)
    requires forall e <- entries :: e.account != account
    ensures Delta(entries, account) == 0
  {
    if entries != [] {
      DeltaElsewhere(entries[1..], account);
    }
  }

  lemma FoldOne(e: Entry, account: string)
    ensures SumOf([e]) == e.amount
    ensures Delta([e], account) == if e.account == account then e.amount else 0
  {
    assert [e][1..] == [];
  }

  lemma FoldTwo(e0: Entry, e1: Entry, account: string)
    ensures SumOf([e0, e1]) == e0.amount + e1.amount
    ensures Delta([e0, e1], account) == Delta([e0], account) + Delta([e1], account)
  {
    assert [e0, e1] == [e0] + [e1];
    SumConcat([e0], [e1]);
    DeltaConcat([e0], [e1], account);
    FoldOne(e0, account);
    FoldOne(e1, account);
  }

  // Validation.

  predicate Valid(p: Posting) {
    && p.txId != ""
    && |p.entries| >= 2
    && (forall e <- p.entries :: e.account != "" && e.amount != 0)
    && SumOf(p.entries) == 0
  }

  function EntryError(e: Entry, i: nat): Option<Error> {
    if e.account == "" then Some(NoAccount(i))
    else if e.amount == 0 then Some(ZeroEntry(i))
    else None
  }

  /** The first entry, from index `i` on, that is unusable. */
  function FirstBadEntry(entries: seq<Entry>, i: nat): Option<Error>
    requires i <= |entries|
    decreases |entries| - i
  {
    if i == |entries| then None
    else if EntryError(entries[i], i).Some? then EntryError(entries[i], i)
    else FirstBadEntry(entries, i + 1)
  }

  function Check(p: Posting): Option<Error> {
    if p.txId == "" then Some(NoTransaction)
    else if |p.entries| < 2 then Some(TooFewEntries(|p.entries|))
    else if FirstBadEntry(p.entries, 0).Some? then FirstBadEntry(p.entries, 0)
    else if SumOf(p.entries) != 0 then Some(Unbalanced(SumOf(p.entries)))
    else None
  }

  lemma {:induction false} NoBadEntry(entries: seq<Entry>, i: nat)
    requires i <= |entries|
    ensures FirstBadEntry(entries, i).None? <==>
            forall k :: i <= k < |entries| ==> entries[k].account != "" && entries[k].amount != 0
    decreases |entries| - i
  {
    if i < |entries| {
      NoBadEntry(entries, i + 1);
    }
  }

  /** The check passes exactly the well-formed, balanced postings. */
  lemma CheckPassesValid(p: Posting)
    ensures Check(p).None? <==> Valid(p)
  {
    NoBadEntry(p.entries, 0);
    assert (forall e <- p.entries :: e.account != "" && e.amount != 0) <==>
           (forall k :: 0 <= k < |p.entries| ==> p.entries[k].account != "" && p.entries[k].amount != 0);
  }

  method Sum(p: Posting) returns (total: int)
    ensures total == SumOf(p.entries)
  {
    total := 0;
    for i := 0 to |p.entries|
      invariant total == SumOf(p.entries[..i])
    {
      assert p.entries[..i + 1] == p.entries[..i] + [p.entries[i]];
      SumConcat(p.entries[..i], [p.entries[i]]);
      FoldOne(p.entries[i], "");
      total := total + p.entries[i].amount;
    }
    assert p.entries[..|p.entries|] == p.entries;
  }

  method Validate(p: Posting) returns (r: Option<Error>)
    ensures r == Check(p)
    ensures r.None? <==> Valid(p)
  {
    CheckPassesValid(p);
    if p.txId == "" {
      return Some(NoTransaction);
    }
    if |p.entries| < 2 {
      return Some(TooFewEntries(|p.entries|));
    }
    for i := 0 to |p.entries|
      invariant FirstBadEntry(p.entries, 0) == FirstBadEntry(p.entries, i)
    {
      if p.entries[i].account == "" {
        return Some(NoAccount(i));
      }
      if p.entries[i].amount == 0 {
        return Some(ZeroEntry(i));
      }
    }
    var sum := Sum(p);
    if sum != 0 {
      return Some(Unbalanced(sum));
    }
    return None;
  }

  // Reversal.

  function Negated(entries: seq<Entry>): (r: seq<Entry>)
    ensures |r| == |entries|
  {
    if entries == [] then []
    else [Entry(entries[0].account, -entries[0].amount)] + Negated(entries[1..])
  }

  /** Reversing undoes a posting on every account, and reversing twice restores it. */
  lemma {:induction false} NegatedUndoes(entries: seq<Entry>, account: string)
    ensures Delta(Negated(entries), account) == -Delta(entries, account)
    ensures SumOf(Negated(entries)) == -SumOf(entries)
    ensures Negated(Negated(entries)) == entries
    ensures forall i :: 0 <= i < |entries| ==>
              Negated(entries)[i] == Entry(entries[i].account, -entries[i].amount)
  {
    if entries != [] {
      NegatedUndoes(entries[1..], account);
      assert Negated(entries)[1..] == Negated(entries[1..]);
    }
  }

  lemma NegatedIsValid(p: Posting, txId: string)
    requires Valid(p) && txId != ""
    ensures Valid(Posting(txId, Negated(p.entries)))
  {
    var n := Negated(p.entries);
    NegatedUndoes(p.entries, "");
    forall e | e in n ensures e.account != "" && e.amount != 0 {
      var i :| 0 <= i < |n| && n[i] == e;
      assert p.entries[i] in p.entries;
    }
  }

  lemma ReversalCancels(entries: seq<Entry>)
    ensures forall a :: Delta(entries + Negated(entries), a) == 0
  {
    forall a ensures Delta(entries + Negated(entries), a) == 0 {
      NegatedUndoes(entries, a);
      DeltaConcat(entries, Negated(entries), a);
    }
  }

  method Flip(entries: seq<Entry>) returns (flipped: seq<Entry>)
    ensures flipped == Negated(entries)
  {
    NegatedUndoes(entries, "");
    flipped := [];
    for i := 0 to |entries|
      invariant |flipped| == i
      invariant forall k :: 0 <= k < i ==> flipped[k] == Entry(entries[k].account, -entries[k].amount)
    {
      flipped := flipped + [Entry(entries[i].account, -entries[i].amount)];
    }
  }

  /** A posting that was valid can always be reversed, and the two together leave every balance alone. */
  method Reverse(original: Posting, txId: string) returns (r: Result<Posting, Error>)
    ensures Valid(original) && txId != "" ==> r.Ok?
    ensures r.Ok? ==> Valid(r.value) && r.value == Posting(txId, Negated(original.entries))
    ensures r.Ok? ==> forall a :: Delta(original.entries + r.value.entries, a) == 0
    ensures r.Err? ==> Check(Posting(txId, Negated(original.entries))) == Some(r.error)
  {
    var entries := Flip(original.entries);
    if Valid(original) && txId != "" {
      NegatedIsValid(original, txId);
    }
    ReversalCancels(original.entries);
    var posting := Posting(txId, entries);
    var bad := Validate(posting);
    r := if bad.Some? then Err(bad.value) else Ok(posting);
  }

  // The log.

  /** Appending a valid posting keeps the books balanced and adds its effect to each balance. */
  lemma PostingConserves(log: seq<Entry>, p: Posting)
    requires SumOf(log) == 0 && Valid(p)
    ensures SumOf(log + p.entries) == 0
    ensures forall a :: Delta(log + p.entries, a) == Delta(log, a) + Delta(p.entries, a)
  {
    SumConcat(log, p.entries);
    forall a ensures Delta(log + p.entries, a) == Delta(log, a) + Delta(p.entries, a) {
      DeltaConcat(log, p.entries, a);
    }
  }

  /** The transaction and entry tables. Rows are only ever appended. */
  class Repo {
    var transactions: set<string>
    var log: seq<Entry>

    constructor ()
      ensures transactions == {} && log == []
    {
      transactions, log := {}, [];
    }

    ghost predicate Balanced()
      reads this
    {
      SumOf(log) == 0
    }

    /** One transaction: either every entry of the posting is stored or nothing is.
        `commits` is the database's verdict at commit. */
    method Post(p: Posting, commits: bool) returns (r: Option<Error>)
      requires Balanced()
      modifies this
      ensures Balanced()
      ensures r.None? <==> Valid(p) && p.txId !in old(transactions) && commits
      ensures r.Some? ==> log == old(log) && transactions == old(transactions)
      ensures r.None? ==> log == old(log) + p.entries && transactions == old(transactions) + {p.txId}
      ensures !Valid(p) ==> r == Check(p)
    {
      r := Validate(p);
      if r.Some? {
        return;
      }
      if p.txId in transactions {
        return Some(DuplicateTransaction);
      }
      if !commits {
        return Some(CommitFailed);
      }
      PostingConserves(log, p);
      transactions := transactions + {p.txId};
      ghost var before := log;
      for i := 0 to |p.entries|
        invariant log == before + p.entries[..i]
        invariant transactions == old(transactions) + {p.txId}
      {
        log := log + [p.entries[i]];
      }
      assert p.entries[..|p.entries|] == p.entries;
    }

    method Balance(account: string) returns (balance: int)
      ensures balance == Delta(log, account)
    {
      balance := 0;
      for i := 0 to |log|
        invariant balance == Delta(log[..i], account)
      {
        assert log[..i + 1] == log[..i] + [log[i]];
        DeltaConcat(log[..i], [log[i]], account);
        FoldOne(log[i], account);
        if log[i].account == account {
          balance := balance + log[i].amount;
        }
      }
      assert log[..|log|] == log;
    }
  }
}
