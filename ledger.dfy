/** The transaction record shared by the pages and the API, and the list operations they
    are built from: `Array.prototype.filter` and a `reduce` that adds up amounts. */
module Ledger {
  import opened Calendar

  datatype Option<T> = None | Some(value: T)

  /** What a `fetch` to the API gave the page: a response with `ok` set, a response
      without it, or an exception (network failure). */
  datatype Reply = Ok | NotOk | Thrown

  /** A stored expense. Amounts are in minor currency units so that sums are exact;
      `paymentMode` is the string the store holds ("CASH", "CARD", "UPI", "NET_BANKING"). */
  datatype Transaction = Transaction(
    id: string,
    amount: int,
    description: string,
    paymentMode: string,
    isSplit: bool,
    date: Date,
    userId: string)

  /** `s.filter(keep)`: the elements that satisfy `keep`, in their original order. */
  function Filter<T(!new)>(s: seq<T>, keep: T -> bool): (r: seq<T>)
    ensures |r| <= |s|
    ensures forall x :: x in r ==> keep(x)
    ensures forall x :: multiset(r)[x] == if keep(x) then multiset(s)[x] else 0
  {
    if s == [] then []
    else
      assert s == [s[0]] + s[1..];
      if keep(s[0]) then [s[0]] + Filter(s[1..], keep) else Filter(s[1..], keep)
  }

  /** `a` is `b` with some elements taken out and the rest kept in order. */
  predicate IsSubsequence<T(==)>(a: seq<T>, b: seq<T>)
    decreases |b|
  {
    if a == [] then true
    else if b == [] then false
    else if a[0] == b[0] then IsSubsequence(a[1..], b[1..])
    else IsSubsequence(a, b[1..])
  }

  /** Filtering keeps the surviving elements in their original order. */
  lemma {:induction false} FilterIsSubsequence<T(!new)>(s: seq<T>, keep: T -> bool)
    ensures IsSubsequence(Filter(s, keep), s)
  {
    if s != [] {
      FilterIsSubsequence(s[1..], keep);
    }
  }

  /** A filter that every element passes changes nothing. */
  lemma {:induction false} FilterKeepsAll<T(!new)>(s: seq<T>, keep: T -> bool)
    requires forall x :: x in s ==> keep(x)
    ensures Filter(s, keep) == s
  {
    if s != [] {
      assert s == [s[0]] + s[1..];
      FilterKeepsAll(s[1..], keep);
    }
  }

  /** Filtering a second time with the same test changes nothing. */
  lemma FilterIdempotent<T(!new)>(s: seq<T>, keep: T -> bool)
    ensures Filter(Filter(s, keep), keep) == Filter(s, keep)
  {
    FilterKeepsAll(Filter(s, keep), keep);
  }

  function HasOtherId(id: string): Transaction -> bool {
    (t: Transaction) => t.id != id
  }

  /** `ts.filter((t) => t.id !== id)`: every transaction with that id is gone, every other one
      is still there as often as before and in the same order. */
  function RemoveId(ts: seq<Transaction>, id: string): (r: seq<Transaction>)
    ensures forall t :: t in r ==> t.id != id
    ensures forall t: Transaction :: t.id != id ==> multiset(r)[t] == multiset(ts)[t]
    ensures IsSubsequence(r, ts)
  {
    FilterIsSubsequence(ts, HasOtherId(id));
    Filter(ts, HasOtherId(id))
  }

  /** Removing an id that no transaction carries leaves the list as it was. */
  lemma RemoveAbsentId(ts: seq<Transaction>, id: string)
    requires forall t :: t in ts ==> t.id != id
    ensures RemoveId(ts, id) == ts
  {
    FilterKeepsAll(ts, HasOtherId(id));
  }

  /** `ts.reduce((sum, t) => sum + t.amount, 0)`. */
  function Sum(ts: seq<Transaction>): int
  {
    if ts == [] then 0 else ts[0].amount + Sum(ts[1..])
  }

  /** The sum of a concatenation is the sum of the parts. */
  lemma {:induction false} SumAppend(a: seq<Transaction>, b: seq<Transaction>)
    ensures Sum(a + b) == Sum(a) + Sum(b)
  {
    if a == [] {
      assert a + b == b;
    } else {
      assert (a + b)[0] == a[0] && (a + b)[1..] == a[1..] + b;
      SumAppend(a[1..], b);
    }
  }

  /** The sum of an empty list is 0 and, for non-negative amounts, no sum is negative. */
  lemma {:induction false} SumNonNegative(ts: seq<Transaction>)
    requires forall t :: t in ts ==> t.amount >= 0
    ensures Sum(ts) >= 0
    ensures ts == [] ==> Sum(ts) == 0
  {
    if ts != [] {
      assert forall t :: t in ts[1..] ==> t in ts;
      SumNonNegative(ts[1..]);
    }
  }
}
