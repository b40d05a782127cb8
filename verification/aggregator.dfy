/**
 * The read-only derivations the dashboard and the transaction list compute
 * from the ledger: the income, expense and balance totals, the list sorted
 * by date (most recent first) and its first five entries.
 */
module Aggregator {
  import opened LedgerTypes

  // ---------------------------------------------------------------------------
  // Totals
  // ---------------------------------------------------------------------------

  /** `txs.filter(t => t.type === k)`: the transactions of one kind, in ledger order. */
  function OfKind(txs: seq<Transaction>, k: Kind): (r: seq<Transaction>)
    ensures |r| <= |txs|
    ensures forall i :: 0 <= i < |r| ==> r[i] in txs && r[i].kind == k
    ensures forall i :: 0 <= i < |txs| && txs[i].kind == k ==> txs[i] in r
  {
    if txs == [] then []
    else (if txs[0].kind == k then [txs[0]] else []) + OfKind(txs[1..], k)
  }

  /** The filter keeps every transaction of the kind as many times as it occurs, and no other. */
  lemma {:induction false} OfKindMultiset(txs: seq<Transaction>, k: Kind)
    ensures forall t :: multiset(OfKind(txs, k))[t] == if t.kind == k then multiset(txs)[t] else 0
  {
    if txs != [] {
      OfKindMultiset(txs[1..], k);
      assert txs == [txs[0]] + txs[1..];
    }
  }

  /**
   * `reduce((sum, t) => sum + t.value, 0)`. Amounts are exact integers, so
   * the order of the additions does not matter.
   */
  function SumValues(txs: seq<Transaction>): (r: int)
    ensures txs == [] ==> r == 0
  {
    if txs == [] then 0 else txs[0].value + SumValues(txs[1..])
  }

  /** The total of one kind; 0 on a ledger without transactions of that kind. */
  function KindTotal(txs: seq<Transaction>, k: Kind): (r: int)
    ensures (forall i :: 0 <= i < |txs| ==> txs[i].kind != k) ==> r == 0
  {
    SumValues(OfKind(txs, k))
  }

  function TotalIncome(txs: seq<Transaction>): (r: int)
    ensures txs == [] ==> r == 0
  {
    KindTotal(txs, Income)
  }

  function TotalExpenses(txs: seq<Transaction>): (r: int)
    ensures txs == [] ==> r == 0
  {
    KindTotal(txs, Expense)
  }

  function Balance(txs: seq<Transaction>): (r: int)
    ensures txs == [] ==> r == 0
  {
    TotalIncome(txs) - TotalExpenses(txs)
  }

  lemma {:induction false} OfKindAppend(a: seq<Transaction>, b: seq<Transaction>, k: Kind)
    ensures OfKind(a + b, k) == OfKind(a, k) + OfKind(b, k)
  {
    if a == [] {
      assert a + b == b;
    } else {
      assert (a + b)[1..] == a[1..] + b;
      OfKindAppend(a[1..], b, k);
    }
  }

  lemma {:induction false} SumAppend(a: seq<Transaction>, b: seq<Transaction>)
    ensures SumValues(a + b) == SumValues(a) + SumValues(b)
  {
    if a == [] {
      assert a + b == b;
    } else {
      assert (a + b)[1..] == a[1..] + b;
      SumAppend(a[1..], b);
    }
  }

  /** Totals are additive over a split of the ledger. */
  lemma KindTotalAppend(a: seq<Transaction>, b: seq<Transaction>, k: Kind)
    ensures KindTotal(a + b, k) == KindTotal(a, k) + KindTotal(b, k)
  {
    OfKindAppend(a, b, k);
    SumAppend(OfKind(a, k), OfKind(b, k));
  }

  /** Taking the same element out of two permutations of each other leaves permutations. */
  lemma RemoveFromPermutation(a: seq<Transaction>, b: seq<Transaction>, i: nat)
    requires multiset(a) == multiset(b) && a != [] && i < |b| && b[i] == a[0]
    ensures multiset(a[1..]) == multiset(b[..i] + b[i + 1..])
  {
    var rest := b[..i] + b[i + 1..];
    MultisetRemove(b, i);
    assert multiset(a) == multiset{a[0]} + multiset(a[1..]) by {
      assert a == [a[0]] + a[1..];
    }
    forall y ensures multiset(a[1..])[y] == multiset(rest)[y] {
      assert multiset(a)[y] == multiset(b)[y];
    }
  }

  /** Taking out position `i` takes out one occurrence of its element. */
  lemma MultisetRemove(b: seq<Transaction>, i: nat)
    requires i < |b|
    ensures multiset(b) == multiset(b[..i] + b[i + 1..]) + multiset{b[i]}
  {
    assert b == b[..i] + b[i..];
    assert b[i..] == [b[i]] + b[i + 1..];
  }

  /** Taking out position `i` takes its amount out of the sum. */
  lemma {:induction false} SumRemove(b: seq<Transaction>, i: nat)
    requires i < |b|
    ensures SumValues(b) == b[i].value + SumValues(b[..i] + b[i + 1..])
  {
    if i == 0 {
      assert b[..0] + b[1..] == b[1..];
    } else {
      var tail := b[1..];
      SumRemove(tail, i - 1);
      var rest := tail[..i - 1] + tail[i..];
      assert b[..i] + b[i + 1..] == [b[0]] + rest;
      assert ([b[0]] + rest)[1..] == rest;
    }
  }

  /** The sum does not depend on the order of the transactions. */
  lemma {:induction false} SumPermutation(a: seq<Transaction>, b: seq<Transaction>)
    requires multiset(a) == multiset(b)
    ensures SumValues(a) == SumValues(b)
  {
    if a == [] {
      assert |b| == |multiset(b)| == 0;
    } else {
      assert a[0] in multiset(b);
      var i :| 0 <= i < |b| && b[i] == a[0];
      RemoveFromPermutation(a, b, i);
      SumPermutation(a[1..], b[..i] + b[i + 1..]);
      SumRemove(b, i);
    }
  }

  /** The total of one kind does not depend on the order of the ledger. */
  lemma KindTotalPermutation(a: seq<Transaction>, b: seq<Transaction>, k: Kind)
    requires multiset(a) == multiset(b)
    ensures KindTotal(a, k) == KindTotal(b, k)
  {
    OfKindMultiset(a, k);
    OfKindMultiset(b, k);
    assert multiset(OfKind(a, k)) == multiset(OfKind(b, k));
    SumPermutation(OfKind(a, k), OfKind(b, k));
  }

  /** Income, expenses and balance are unchanged by any reordering of the ledger. */
  lemma TotalsPermutationInvariant(a: seq<Transaction>, b: seq<Transaction>)
    requires multiset(a) == multiset(b)
    ensures TotalIncome(a) == TotalIncome(b)
    ensures TotalExpenses(a) == TotalExpenses(b)
    ensures Balance(a) == Balance(b)
  {
    KindTotalPermutation(a, b, Income);
    KindTotalPermutation(a, b, Expense);
  }

  /** The balance moves by exactly the signed amount of one appended transaction. */
  lemma BalanceAppend(txs: seq<Transaction>, t: Transaction)
    ensures Balance(txs + [t]) == Balance(txs) + (if t.kind == Income then t.value else -t.value)
  {
    KindTotalAppend(txs, [t], Income);
    KindTotalAppend(txs, [t], Expense);
    assert OfKind([t], Income) == (if t.kind == Income then [t] else []);
    assert OfKind([t], Expense) == (if t.kind == Expense then [t] else []);
  }

  /** An income of 1500 and an expense of 50 leave a balance of 1450. */
  lemma TotalsScenario(income: Transaction, expense: Transaction)
    requires income.kind == Income && income.value == 1500
    requires expense.kind == Expense && expense.value == 50
    ensures TotalIncome([income, expense]) == 1500
    ensures TotalExpenses([income, expense]) == 50
    ensures Balance([income, expense]) == 1450
  {
    assert [income, expense][1..] == [expense];
    assert OfKind([income, expense], Income) == [income];
    assert OfKind([income, expense], Expense) == [expense];
    assert [income][1..] == [] && [expense][1..] == [];
    assert SumValues([income]) == 1500 && SumValues([expense]) == 50;
  }

  // ---------------------------------------------------------------------------
  // Sorting by date, most recent first
  // ---------------------------------------------------------------------------

  predicate SortedByDateDesc(s: seq<Transaction>)
  {
    forall i, j :: 0 <= i < j < |s| ==> s[i].date >= s[j].date
  }

  /** The transactions of `s` dated `d`, in the order of `s`. */
  function OnDate(s: seq<Transaction>, d: Date): seq<Transaction>
  {
    if s == [] then []
    else (if s[0].date == d then [s[0]] else []) + OnDate(s[1..], d)
  }

  /**
   * A stable sort: every date keeps, among its own transactions, the order
   * of the input.
   */
  ghost predicate IsStableDateDescSortOf(r: seq<Transaction>, s: seq<Transaction>)
  {
    && SortedByDateDesc(r)
    && forall d :: OnDate(r, d) == OnDate(s, d)
  }

  /**
   * Places `x` in front of the first element not later than it, so that `x`
   * precedes the transactions of its own date that come after it in the input.
   */
  function Insert(x: Transaction, s: seq<Transaction>): (r: seq<Transaction>)
    ensures |r| == |s| + 1
    ensures multiset(r) == multiset(s) + multiset{x}
  {
    if s == [] || s[0].date <= x.date then [x] + s
    else
      assert s == [s[0]] + s[1..];
      [s[0]] + Insert(x, s[1..])
  }

  /**
   * `[...txs].sort((a, b) => new Date(b.date) - new Date(a.date))`, the sort
   * being stable as ECMAScript 2019 requires of `Array.prototype.sort`.
   */
  function SortByDateDesc(s: seq<Transaction>): (r: seq<Transaction>)
    ensures |r| == |s|
    ensures multiset(r) == multiset(s)
  {
    if s == [] then []
    else
      assert s == [s[0]] + s[1..];
      Insert(s[0], SortByDateDesc(s[1..]))
  }

  lemma {:induction false} InsertSorted(x: Transaction, s: seq<Transaction>)
    requires SortedByDateDesc(s)
    ensures SortedByDateDesc(Insert(x, s))
  {
    if s == [] || s[0].date <= x.date {
    } else {
      InsertSorted(x, s[1..]);
      var tail := Insert(x, s[1..]);
      forall k | 0 <= k < |tail|
        ensures tail[k].date <= s[0].date
      {
        assert tail[k] in multiset(tail);
        if tail[k] != x {
          assert tail[k] in multiset(s[1..]);
          var m :| 0 <= m < |s[1..]| && s[1..][m] == tail[k];
          assert s[m + 1] == tail[k];
        }
      }
      var r := [s[0]] + tail;
      forall i, j | 0 <= i < j < |r|
        ensures r[i].date >= r[j].date
      {
        if i == 0 {
          assert r[j] == tail[j - 1];
        } else {
          assert r[i] == tail[i - 1] && r[j] == tail[j - 1];
        }
      }
    }
  }

  lemma OnDateCons(y: Transaction, s: seq<Transaction>, d: Date)
    ensures OnDate([y] + s, d) == (if y.date == d then [y] else []) + OnDate(s, d)
  {
    assert ([y] + s)[0] == y;
    assert ([y] + s)[1..] == s;
  }

  lemma {:induction false} InsertOnDate(x: Transaction, s: seq<Transaction>, d: Date)
    ensures OnDate(Insert(x, s), d) == (if x.date == d then [x] else []) + OnDate(s, d)
  {
    if s == [] || s[0].date <= x.date {
      assert Insert(x, s) == [x] + s;
      OnDateCons(x, s, d);
    } else {
      var tail := Insert(x, s[1..]);
      var head: seq<Transaction> := if s[0].date == d then [s[0]] else [];
      var mid: seq<Transaction> := if x.date == d then [x] else [];
      assert OnDate(Insert(x, s), d) == head + OnDate(tail, d) by {
        assert Insert(x, s) == [s[0]] + tail;
        OnDateCons(s[0], tail, d);
      }
      assert OnDate(tail, d) == mid + OnDate(s[1..], d) by {
        InsertOnDate(x, s[1..], d);
      }
      assert OnDate(s, d) == head + OnDate(s[1..], d) by {
        assert s == [s[0]] + s[1..];
        OnDateCons(s[0], s[1..], d);
      }
      assert head == [] || mid == [];
    }
  }

  lemma {:induction false} OnDateMembers(s: seq<Transaction>, d: Date, t: Transaction)
    requires t in OnDate(s, d)
    ensures t in s && t.date == d
  {
    if s != [] {
      assert s == [s[0]] + s[1..];
      OnDateCons(s[0], s[1..], d);
      if t != s[0] || s[0].date != d {
        OnDateMembers(s[1..], d, t);
      }
    }
  }

  /** The sorted list is sorted, and among equal dates the ledger order is kept. */
  lemma {:induction false} SortIsStable(s: seq<Transaction>)
    ensures SortedByDateDesc(SortByDateDesc(s))
    ensures forall d :: OnDate(SortByDateDesc(s), d) == OnDate(s, d)
  {
    if s != [] {
      SortIsStable(s[1..]);
      InsertSorted(s[0], SortByDateDesc(s[1..]));
      forall d ensures OnDate(SortByDateDesc(s), d) == OnDate(s, d) {
        InsertOnDate(s[0], SortByDateDesc(s[1..]), d);
      }
    }
  }

  lemma {:induction false} OnDateHead(s: seq<Transaction>)
    requires s != []
    ensures OnDate(s, s[0].date) != []
    ensures OnDate(s, s[0].date)[0] == s[0]
  {
  }

  lemma {:induction false} OnDateOther(s: seq<Transaction>, d: Date)
    requires s != [] && s[0].date != d
    ensures OnDate(s, d) == OnDate(s[1..], d)
  {
  }

  /**
   * Sortedness and per-date order determine the result: any list that is a
   * stable date-descending sort of the same ledger is the same list.
   */
  lemma {:induction false} StableSortUnique(r1: seq<Transaction>, r2: seq<Transaction>)
    requires SortedByDateDesc(r1) && SortedByDateDesc(r2)
    requires forall d :: OnDate(r1, d) == OnDate(r2, d)
    ensures r1 == r2
  {
    if r1 == [] {
      if r2 != [] {
        OnDateHead(r2);
      }
    } else if r2 == [] {
      OnDateHead(r1);
    } else {
      var d1, d2 := r1[0].date, r2[0].date;
      OnDateHead(r1);
      OnDateHead(r2);
      assert d1 >= d2 by {
        var t := OnDate(r1, d2)[0];
        OnDateMembers(r1, d2, t);
        var j :| 0 <= j < |r1| && r1[j] == t;
      }
      assert d2 >= d1 by {
        var t := OnDate(r2, d1)[0];
        OnDateMembers(r2, d1, t);
        var j :| 0 <= j < |r2| && r2[j] == t;
      }
      assert r1[0] == r2[0];
      forall d ensures OnDate(r1[1..], d) == OnDate(r2[1..], d) {
        if d == d1 {
          assert r1 == [r1[0]] + r1[1..];
          assert r2 == [r2[0]] + r2[1..];
          OnDateCons(r1[0], r1[1..], d);
          OnDateCons(r2[0], r2[1..], d);
          assert OnDate(r1[1..], d) == OnDate(r1, d)[1..];
          assert OnDate(r2[1..], d) == OnDate(r2, d)[1..];
        } else {
          OnDateOther(r1, d);
          OnDateOther(r2, d);
        }
      }
      StableSortUnique(r1[1..], r2[1..]);
      assert r1 == [r1[0]] + r1[1..];
      assert r2 == [r2[0]] + r2[1..];
    }
  }

  /**
   * The full transaction list: a permutation of the ledger, dated
   * non-increasingly, equal dates in ledger order; and it is the only such list.
   */
  lemma SortedListSpec(s: seq<Transaction>)
    ensures multiset(SortByDateDesc(s)) == multiset(s)
    ensures IsStableDateDescSortOf(SortByDateDesc(s), s)
    ensures forall r :: IsStableDateDescSortOf(r, s) ==> r == SortByDateDesc(s)
  {
    SortIsStable(s);
    forall r | IsStableDateDescSortOf(r, s)
      ensures r == SortByDateDesc(s)
    {
      StableSortUnique(r, SortByDateDesc(s));
    }
  }

  // ---------------------------------------------------------------------------
  // Recent transactions
  // ---------------------------------------------------------------------------

  const RecentCount: nat := 5

  function Min(a: int, b: int): int
  {
    if a <= b then a else b
  }

  /** `[...db.transactions].sort(byDateDesc).slice(0, 5)` */
  function Recent(txs: seq<Transaction>): (r: seq<Transaction>)
    ensures |r| == Min(RecentCount, |txs|)
    ensures r == SortByDateDesc(txs)[..|r|]
  {
    SortByDateDesc(txs)[..Min(RecentCount, |txs|)]
  }

  /** In a sorted list, nothing after position `k` is later than anything before it. */
  lemma SortedPrefixDominates(s: seq<Transaction>, k: nat)
    requires SortedByDateDesc(s) && k <= |s|
    ensures SortedByDateDesc(s[..k])
    ensures forall t, u :: t in s[k..] && u in s[..k] ==> t.date <= u.date
  {
    forall t, u | t in s[k..] && u in s[..k]
      ensures t.date <= u.date
    {
      var j :| 0 <= j < |s[k..]| && s[k..][j] == t;
      var i :| 0 <= i < |s[..k]| && s[..k][i] == u;
      assert s[i] == u && s[k + j] == t;
    }
  }

  /**
   * The recent list is drawn from the ledger, is itself ordered most recent
   * first, and nothing left out of it is later than anything shown.
   */
  lemma RecentSpec(txs: seq<Transaction>)
    ensures multiset(Recent(txs)) <= multiset(txs)
    ensures SortedByDateDesc(Recent(txs))
    ensures forall t, u :: t in multiset(txs) - multiset(Recent(txs)) && u in Recent(txs) ==> t.date <= u.date
  {
    var sorted := SortByDateDesc(txs);
    var r := Recent(txs);
    var rest := sorted[|r|..];
    SortIsStable(txs);
    assert sorted == r + rest;
    assert multiset(txs) == multiset(r) + multiset(rest);
    SortedPrefixDominates(sorted, |r|);
    forall t, u | t in multiset(txs) - multiset(r) && u in r
      ensures t.date <= u.date
    {
      assert t in multiset(rest);
    }
  }
}
