/** The financial dashboard (src/components/Dashboard.tsx): income and
    expense totals, net savings, expenses grouped by category, the top five
    categories, the recent-transactions list and the savings-goal bars. */
module Dashboard {
  import opened Types
  import DemoData

  // ---------------------------------------------------------------------
  // Totals
  // ---------------------------------------------------------------------

  /** The positions of the transactions of one kind, in increasing order:
      every position of that kind, and no other. */
  function KindPositions(ts: seq<Transaction>, kind: TxKind): (idx: seq<nat>)
    ensures forall j :: 0 <= j < |idx| ==> idx[j] < |ts| && ts[idx[j]].kind == kind
    ensures forall i, j :: 0 <= i < j < |idx| ==> idx[i] < idx[j]
    ensures forall k :: 0 <= k < |ts| && ts[k].kind == kind ==> k in idx
  {
    if ts == [] then []
    else
      var last := |ts| - 1;
      KindPositions(ts[..last], kind) + (if ts[last].kind == kind then [last] else [])
  }

  /** `filter(t => t.type === kind)`: the transactions of one kind, in order
      (`OfKindAtPositions` and `OfKindIsFilter` state that it keeps all of
      them, in order). */
  function OfKind(ts: seq<Transaction>, kind: TxKind): (r: seq<Transaction>)
    ensures |r| <= |ts|
    ensures forall k :: 0 <= k < |r| ==> r[k].kind == kind && r[k] in ts
  {
    if ts == [] then []
    else
      var last := ts[|ts| - 1];
      OfKind(ts[..|ts| - 1], kind) + (if last.kind == kind then [last] else [])
  }

  /** The filter reads the transactions off the kind's positions: it drops
      every other transaction and keeps their order. */
  lemma {:induction false} OfKindAtPositions(ts: seq<Transaction>, kind: TxKind)
    ensures |OfKind(ts, kind)| == |KindPositions(ts, kind)|
    ensures forall j :: 0 <= j < |OfKind(ts, kind)| ==> OfKind(ts, kind)[j] == ts[KindPositions(ts, kind)[j]]
  {
    if ts != [] {
      var last := |ts| - 1;
      var front, t := ts[..last], ts[last];
      OfKindAtPositions(front, kind);
      var sub, before := OfKind(front, kind), KindPositions(front, kind);
      var r, idx := OfKind(ts, kind), KindPositions(ts, kind);
      if t.kind == kind {
        assert r == sub + [t] && idx == before + [last];
      } else {
        assert r == sub && idx == before;
      }
      forall j | 0 <= j < |r|
        ensures r[j] == ts[idx[j]]
      {
        if j < |sub| {
          assert r[j] == sub[j] == front[before[j]];
        }
      }
    }
  }

  /** The filter keeps every transaction of the kind. */
  lemma OfKindIsFilter(ts: seq<Transaction>, kind: TxKind)
    ensures forall k :: 0 <= k < |ts| && ts[k].kind == kind ==> ts[k] in OfKind(ts, kind)
  {
    OfKindAtPositions(ts, kind);
    var r, idx := OfKind(ts, kind), KindPositions(ts, kind);
    forall k | 0 <= k < |ts| && ts[k].kind == kind
      ensures ts[k] in r
    {
      var j :| 0 <= j < |idx| && idx[j] == k;
      assert r[j] == ts[k];
    }
  }

  /** The amounts are all non-negative. */
  predicate NonNegative(ts: seq<Transaction>) {
    forall k :: 0 <= k < |ts| ==> ts[k].amount >= 0
  }

  /** `reduce((sum, t) => sum + t.amount, 0)`, folding from the left. */
  function Sum(ts: seq<Transaction>): (total: int)
    ensures NonNegative(ts) ==> total >= 0
  {
    if ts == [] then 0 else Sum(ts[..|ts| - 1]) + ts[|ts| - 1].amount
  }

  /** `totalIncome`: with non-negative amounts, between 0 and the sum of all
      amounts. */
  function TotalIncome(ts: seq<Transaction>): (total: int)
    ensures NonNegative(ts) ==> 0 <= total <= Sum(ts)
  {
    OfKindSumIsPart(ts, Income);
    Sum(OfKind(ts, Income))
  }

  /** `totalExpenses`: with non-negative amounts, between 0 and the sum of all
      amounts. */
  function TotalExpenses(ts: seq<Transaction>): (total: int)
    ensures NonNegative(ts) ==> 0 <= total <= Sum(ts)
  {
    OfKindSumIsPart(ts, Expense);
    Sum(OfKind(ts, Expense))
  }

  /** `netSavings = totalIncome - totalExpenses`: the balance of every
      transaction, each counted once with its sign. */
  function NetSavings(ts: seq<Transaction>): (net: int)
    ensures net == Balance(ts)
  {
    KindSumsAreBalance(ts);
    TotalIncome(ts) - TotalExpenses(ts)
  }

  /** With non-negative amounts the filtered sum is part of the whole sum. */
  lemma {:induction false} OfKindSumIsPart(ts: seq<Transaction>, kind: TxKind)
    ensures NonNegative(ts) ==> 0 <= Sum(OfKind(ts, kind)) <= Sum(ts)
  {
    if ts != [] && NonNegative(ts) {
      var front := ts[..|ts| - 1];
      var t := ts[|ts| - 1];
      assert NonNegative(front) by {
        forall k | 0 <= k < |front| ensures front[k].amount >= 0 { assert front[k] == ts[k]; }
      }
      OfKindSumIsPart(front, kind);
      var sub := OfKind(front, kind);
      assert Sum(ts) == Sum(front) + t.amount;
      if t.kind == kind {
        assert OfKind(ts, kind) == sub + [t];
        SumAppend(sub, t);
      } else {
        assert OfKind(ts, kind) == sub;
      }
    }
  }

  /** The effect of one transaction on the balance. */
  function Signed(t: Transaction): int {
    if t.kind == Income then t.amount else -t.amount
  }

  /** A one-pass reference: the balance of all transactions. */
  function Balance(ts: seq<Transaction>): int {
    if ts == [] then 0 else Balance(ts[..|ts| - 1]) + Signed(ts[|ts| - 1])
  }

  /** Appending a transaction adds it to the totals of its own kind only. */
  lemma OfKindAppend(ts: seq<Transaction>, t: Transaction, kind: TxKind)
    ensures OfKind(ts + [t], kind) == OfKind(ts, kind) + (if t.kind == kind then [t] else [])
  {
    assert (ts + [t])[..|ts|] == ts;
  }

  lemma SumAppend(ts: seq<Transaction>, t: Transaction)
    ensures Sum(ts + [t]) == Sum(ts) + t.amount
  {
    assert (ts + [t])[..|ts|] == ts;
  }

  /** Appending a transaction adds its amount to the total of its own kind and
      leaves the other kind's total alone. */
  lemma KindTotalAppend(ts: seq<Transaction>, t: Transaction, kind: TxKind)
    ensures Sum(OfKind(ts + [t], kind)) == Sum(OfKind(ts, kind)) + (if t.kind == kind then t.amount else 0)
  {
    OfKindAppend(ts, t, kind);
    if t.kind == kind {
      SumAppend(OfKind(ts, kind), t);
    } else {
      assert OfKind(ts + [t], kind) == OfKind(ts, kind);
    }
  }

  /** Net savings is the balance of every transaction: the two filtered sums
      together count each transaction once, with its sign. */
  lemma {:induction false} KindSumsAreBalance(ts: seq<Transaction>)
    ensures Sum(OfKind(ts, Income)) - Sum(OfKind(ts, Expense)) == Balance(ts)
  {
    if ts != [] {
      var front := ts[..|ts| - 1];
      var t := ts[|ts| - 1];
      assert ts == front + [t];
      KindSumsAreBalance(front);
      KindTotalAppend(front, t, Income);
      KindTotalAppend(front, t, Expense);
    }
  }

  /** Every transaction is an income or an expense: the two totals together
      are the sum of all amounts. */
  lemma {:induction false} TotalsPartitionAmounts(ts: seq<Transaction>)
    ensures TotalIncome(ts) + TotalExpenses(ts) == Sum(ts)
  {
    if ts != [] {
      var front := ts[..|ts| - 1];
      var t := ts[|ts| - 1];
      assert ts == front + [t];
      TotalsPartitionAmounts(front);
      KindTotalAppend(front, t, Income);
      KindTotalAppend(front, t, Expense);
      SumAppend(front, t);
    }
  }

  // ---------------------------------------------------------------------
  // Expenses by category
  // ---------------------------------------------------------------------

  /** The categories of `es` in order of first occurrence: the key order of
      the object the reduce builds. */
  function Categories(es: seq<Transaction>): (cs: seq<string>)
    ensures forall i, j :: 0 <= i < j < |cs| ==> cs[i] != cs[j]
  {
    if es == [] then []
    else
      var prev := Categories(es[..|es| - 1]);
      var c := es[|es| - 1].category;
      if c in prev then prev else prev + [c]
  }

  /** The key order holds exactly the categories that occur, so the map has
      an entry for every category with an expense and for no other. */
  lemma {:induction false} CategoriesOccur(es: seq<Transaction>, c: string)
    ensures c in Categories(es) <==> exists k :: 0 <= k < |es| && es[k].category == c
  {
    if es != [] {
      var front := es[..|es| - 1];
      CategoriesOccur(front, c);
      if exists k :: 0 <= k < |front| && front[k].category == c {
        var k :| 0 <= k < |front| && front[k].category == c;
        assert es[k].category == c;
      }
      if exists k :: 0 <= k < |es| && es[k].category == c {
        var k :| 0 <= k < |es| && es[k].category == c;
        if k < |front| {
          assert front[k].category == c;
        }
      }
    }
  }

  /** The amount spent in one category. */
  function CategoryTotal(es: seq<Transaction>, c: string): int {
    if es == [] then 0
    else
      var last := es[|es| - 1];
      CategoryTotal(es[..|es| - 1], c) + (if last.category == c then last.amount else 0)
  }

  /** A category that never occurs totals 0. */
  lemma {:induction false} AbsentCategoryIsZero(es: seq<Transaction>, c: string)
    requires c !in Categories(es)
    ensures CategoryTotal(es, c) == 0
  {
    if es != [] {
      AbsentCategoryIsZero(es[..|es| - 1], c);
    }
  }

  /** The map the reduce builds, as a function of the expenses it ran over. */
  ghost function Grouped(es: seq<Transaction>): (g: map<string, int>)
    ensures forall k :: 0 <= k < |es| ==> es[k].category in g
  {
    CategoriesAreThoseThatOccur(es);
    map c | c in Categories(es) :: CategoryTotal(es, c)
  }

  /** The key order holds exactly the categories some expense has. */
  lemma CategoriesAreThoseThatOccur(es: seq<Transaction>)
    ensures forall c :: c in Categories(es) <==> exists k :: 0 <= k < |es| && es[k].category == c
  {
    forall c
      ensures c in Categories(es) <==> exists k :: 0 <= k < |es| && es[k].category == c
    {
      CategoriesOccur(es, c);
    }
  }

  /** One more expense: its category joins the key order if new, and its
      entry grows by the amount, starting from 0. */
  lemma GroupAppend(es: seq<Transaction>, t: Transaction)
    ensures Categories(es + [t]) ==
      if t.category in Categories(es) then Categories(es) else Categories(es) + [t.category]
    ensures Grouped(es + [t]) == AddExpense(Grouped(es), t)
  {
    GroupedGrows(es, t);
    AddExpenseIsUpdate(Grouped(es), t);
  }

  /** The map after one more expense, written as a map update. */
  lemma GroupedGrows(es: seq<Transaction>, t: Transaction)
    ensures Categories(es + [t]) ==
      if t.category in Categories(es) then Categories(es) else Categories(es) + [t.category]
    ensures Grouped(es + [t]) ==
      Grouped(es)[t.category := (if t.category in Grouped(es) then Grouped(es)[t.category] else 0) + t.amount]
  {
    var now := es + [t];
    assert now[..|es|] == es;
    if t.category !in Categories(es) {
      AbsentCategoryIsZero(es, t.category);
    }
    var g := Grouped(es)[t.category := (if t.category in Grouped(es) then Grouped(es)[t.category] else 0) + t.amount];
    forall c | c in Categories(now)
      ensures c in g && g[c] == CategoryTotal(now, c)
    {
    }
    assert Grouped(now).Keys == g.Keys;
  }

  /** The callback, written as a map update. */
  lemma AddExpenseIsUpdate(acc: map<string, int>, t: Transaction)
    ensures AddExpense(acc, t) == acc[t.category := (if t.category in acc then acc[t.category] else 0) + t.amount]
  {
  }

  /** The reduce's callback, `acc[t.category] = (acc[t.category] || 0) +
      t.amount`: the entry starts at 0 when the category is new. */
  function AddExpense(acc: map<string, int>, t: Transaction): (r: map<string, int>)
    ensures r.Keys == acc.Keys + {t.category}
    ensures forall c :: c in acc && c != t.category ==> r[c] == acc[c]
    ensures t.category in acc ==> r[t.category] == acc[t.category] + t.amount
    ensures t.category !in acc ==> r[t.category] == t.amount
  {
    acc[t.category := (if t.category in acc then acc[t.category] else 0) + t.amount]
  }

  /** The object's key order after an assignment to `acc[c]`: a new key goes
      last, an existing one keeps its place. */
  function KeyOrder(keys: seq<string>, c: string): seq<string> {
    if c in keys then keys else keys + [c]
  }

  /** One step of the reduce, on the key order and map built so far. */
  lemma GroupStep(es: seq<Transaction>, i: nat, keys: seq<string>, totals: map<string, int>)
    requires i < |es| && keys == Categories(es[..i]) && totals == Grouped(es[..i])
    ensures KeyOrder(keys, es[i].category) == Categories(es[..i + 1])
    ensures AddExpense(totals, es[i]) == Grouped(es[..i + 1])
  {
    var before, t := es[..i], es[i];
    assert es[..i + 1] == before + [t];
    GroupAppend(before, t);
  }

  /** The map's keys are the categories. */
  lemma GroupedKeys(es: seq<Transaction>)
    ensures Grouped(es).Keys == set c | c in Categories(es)
  {
  }

  /** The `expensesByCategory` reduce over the expenses: each expense adds
      its amount to its category's entry, creating the entry at 0 when the
      category is new. `keys` is the object's key order. */
  method ExpensesByCategory(ts: seq<Transaction>) returns (keys: seq<string>, totals: map<string, int>)
    ensures keys == Categories(OfKind(ts, Expense))
    ensures totals == Grouped(OfKind(ts, Expense))
    ensures totals.Keys == set c | c in keys
  {
    var es := OfKind(ts, Expense);
    keys := [];
    totals := map[];
    var i := 0;
    while i < |es|
      invariant 0 <= i <= |es|
      invariant keys == Categories(es[..i])
      invariant totals == Grouped(es[..i])
    {
      GroupStep(es, i, keys, totals);
      keys, totals := KeyOrder(keys, es[i].category), AddExpense(totals, es[i]);
      i := i + 1;
    }
    assert es[..|es|] == es;
    GroupedKeys(es);
  }

  /** The sum of the category totals over a list of categories. */
  function SumOver(keys: seq<string>, es: seq<Transaction>): int {
    if keys == [] then 0 else SumOver(keys[..|keys| - 1], es) + CategoryTotal(es, keys[|keys| - 1])
  }

  /** Adding one expense raises the sum over distinct categories by its amount
      when its category is among them, and leaves it alone otherwise. */
  lemma {:induction false} SumOverAppend(keys: seq<string>, es: seq<Transaction>, t: Transaction)
    requires forall i, j :: 0 <= i < j < |keys| ==> keys[i] != keys[j]
    ensures SumOver(keys, es + [t]) == SumOver(keys, es) + (if t.category in keys then t.amount else 0)
  {
    assert (es + [t])[..|es|] == es;
    if keys != [] {
      var front := keys[..|keys| - 1];
      SumOverAppend(front, es, t);
      assert keys == front + [keys[|keys| - 1]];
      assert t.category in keys <==> t.category in front || t.category == keys[|keys| - 1];
    }
  }

  lemma SumOverNewKey(keys: seq<string>, es: seq<Transaction>, c: string)
    ensures SumOver(keys + [c], es) == SumOver(keys, es) + CategoryTotal(es, c)
  {
    assert (keys + [c])[..|keys|] == keys;
  }

  /** The category totals add up to the sum of the expenses. */
  lemma {:induction false} CategoryTotalsSumToExpenses(es: seq<Transaction>)
    ensures SumOver(Categories(es), es) == Sum(es)
  {
    if es != [] {
      var front := es[..|es| - 1];
      var t := es[|es| - 1];
      assert es == front + [t];
      CategoryTotalsSumToExpenses(front);
      var keys := Categories(front);
      SumOverAppend(keys, front, t);
      SumAppend(front, t);
      if t.category !in keys {
        AbsentCategoryIsZero(front, t.category);
        SumOverNewKey(keys, es, t.category);
        assert CategoryTotal(es, t.category) == t.amount;
      }
    }
  }

  /** The grouped values add up to `totalExpenses`. */
  lemma GroupedSumsToTotalExpenses(ts: seq<Transaction>)
    ensures SumOver(Categories(OfKind(ts, Expense)), OfKind(ts, Expense)) == TotalExpenses(ts)
  {
    CategoryTotalsSumToExpenses(OfKind(ts, Expense));
  }

  /** With no negative amounts, no category total exceeds the whole, so the
      percentage bar of a category stays within 100. */
  lemma {:induction false} CategoryWithinTotal(es: seq<Transaction>, c: string)
    requires forall k :: 0 <= k < |es| ==> es[k].amount >= 0
    ensures 0 <= CategoryTotal(es, c) <= Sum(es)
  {
    if es != [] {
      var front := es[..|es| - 1];
      assert forall k :: 0 <= k < |front| ==> front[k] == es[k];
      CategoryWithinTotal(front, c);
    }
  }

  // ---------------------------------------------------------------------
  // Top five categories
  // ---------------------------------------------------------------------

  datatype Entry = Entry(category: string, amount: int)

  /** `Object.entries(expensesByCategory)`: the pairs in key order. */
  function Entries(keys: seq<string>, totals: map<string, int>): (r: seq<Entry>)
    requires forall k :: 0 <= k < |keys| ==> keys[k] in totals
    ensures |r| == |keys|
    ensures forall k :: 0 <= k < |r| ==> r[k] == Entry(keys[k], totals[keys[k]])
  {
    if keys == [] then []
    else Entries(keys[..|keys| - 1], totals) + [Entry(keys[|keys| - 1], totals[keys[|keys| - 1]])]
  }

  /** Non-increasing by amount. */
  predicate Descending(s: seq<Entry>) {
    forall i, j :: 0 <= i < j < |s| ==> s[i].amount >= s[j].amount
  }

  /** Places `x` after every entry at least as large, so that equal amounts
      keep their order. */
  function Insert(x: Entry, s: seq<Entry>): (r: seq<Entry>)
    requires Descending(s)
    ensures Descending(r) && |r| == |s| + 1
    ensures forall k :: 0 <= k < |r| ==> r[k] == x || r[k] in s
  {
    if s == [] then [x]
    else if s[0].amount < x.amount then [x] + s
    else [s[0]] + Insert(x, s[1..])
  }

  /** Inserting adds exactly the one entry. */
  lemma {:induction false} InsertAddsOne(x: Entry, s: seq<Entry>)
    requires Descending(s)
    ensures multiset(Insert(x, s)) == multiset(s) + multiset{x}
  {
    if s != [] && s[0].amount >= x.amount {
      InsertAddsOne(x, s[1..]);
      assert s == [s[0]] + s[1..];
    }
  }

  /** `sort(([, a], [, b]) => b - a)`, as the stable sort of the language:
      the entries by non-increasing amount. */
  function SortByAmount(s: seq<Entry>): (r: seq<Entry>)
    ensures Descending(r) && |r| == |s|
    ensures multiset(r) == multiset(s)
  {
    if s == [] then []
    else
      var front := s[..|s| - 1];
      assert s == front + [s[|s| - 1]];
      InsertAddsOne(s[|s| - 1], SortByAmount(front));
      Insert(s[|s| - 1], SortByAmount(front))
  }

  /** `.slice(0, 5)` of the sorted entries. */
  function TopFive(s: seq<Entry>): (r: seq<Entry>)
    ensures |r| <= 5 && |r| == if |s| < 5 then |s| else 5
    ensures Descending(r)
  {
    var sorted := SortByAmount(s);
    if |sorted| < 5 then sorted else sorted[..5]
  }

  /** The top five are drawn from the entries, and no entry left out has a
      larger amount than one kept. */
  lemma TopFiveIsTop(s: seq<Entry>)
    ensures multiset(TopFive(s)) <= multiset(s)
    ensures forall e :: e in multiset(s) - multiset(TopFive(s)) ==>
      forall k :: 0 <= k < |TopFive(s)| ==> e.amount <= TopFive(s)[k].amount
  {
    var sorted := SortByAmount(s);
    var top := TopFive(s);
    var rest := sorted[|top|..];
    assert sorted == top + rest;
    assert multiset(s) == multiset(top) + multiset(rest);
    forall e | e in multiset(s) - multiset(top)
      ensures forall k :: 0 <= k < |top| ==> e.amount <= top[k].amount
    {
      assert e in rest;
      RestIsSmaller(sorted, |top|, e);
    }
  }

  /** In a descending list, whatever lies past position `n` is no larger
      than anything before it. */
  lemma RestIsSmaller(sorted: seq<Entry>, n: nat, e: Entry)
    requires Descending(sorted) && n <= |sorted| && e in sorted[n..]
    ensures forall k :: 0 <= k < n ==> e.amount <= sorted[k].amount
  {
    var j :| 0 <= j < |sorted[n..]| && sorted[n..][j] == e;
    assert sorted[n + j] == e;
  }

  /** An entry that is not among the top five is no larger than any of them. */
  lemma LeftOutIsSmaller(s: seq<Entry>, e: Entry)
    requires e in s && e !in TopFive(s)
    ensures forall k :: 0 <= k < |TopFive(s)| ==> e.amount <= TopFive(s)[k].amount
  {
    TopFiveIsTop(s);
    assert e in multiset(s) - multiset(TopFive(s));
  }

  /** The entries of the grouped expenses, in key order. */
  ghost function CategoryEntries(es: seq<Transaction>): (r: seq<Entry>)
    ensures |r| == |Categories(es)|
    ensures forall k :: 0 <= k < |r| ==> r[k] == Entry(Categories(es)[k], CategoryTotal(es, Categories(es)[k]))
  {
    Entries(Categories(es), Grouped(es))
  }

  /** `topExpenseCategories`: `Object.entries` of the grouped expenses,
      sorted by amount, first five. */
  method TopExpenseCategories(ts: seq<Transaction>) returns (top: seq<Entry>)
    ensures top == TopFive(CategoryEntries(OfKind(ts, Expense)))
  {
    var keys, totals := ExpensesByCategory(ts);
    top := TopFive(Entries(keys, totals));
  }

  /** Every top entry is a category with its total. */
  lemma TopEntriesAreCategoryTotals(es: seq<Transaction>)
    ensures forall k :: 0 <= k < |TopFive(CategoryEntries(es))| ==>
      var e := TopFive(CategoryEntries(es))[k];
      e.category in Categories(es) && e.amount == CategoryTotal(es, e.category)
  {
    var entries := CategoryEntries(es);
    var top := TopFive(entries);
    TopFiveIsTop(entries);
    forall k | 0 <= k < |top|
      ensures top[k].category in Categories(es) && top[k].amount == CategoryTotal(es, top[k].category)
    {
      assert top[k] in multiset(entries);
      var i :| 0 <= i < |entries| && entries[i] == top[k];
    }
  }

  /** No category left out of the top list has spent more than one kept. */
  lemma TopCategoriesAreLargest(es: seq<Transaction>, c: string)
    requires c in Categories(es) && Entry(c, CategoryTotal(es, c)) !in TopFive(CategoryEntries(es))
    ensures forall k :: 0 <= k < |TopFive(CategoryEntries(es))| ==>
      CategoryTotal(es, c) <= TopFive(CategoryEntries(es))[k].amount
  {
    var entries := CategoryEntries(es);
    var i :| 0 <= i < |Categories(es)| && Categories(es)[i] == c;
    assert entries[i] == Entry(c, CategoryTotal(es, c));
    LeftOutIsSmaller(entries, Entry(c, CategoryTotal(es, c)));
  }


  // ---------------------------------------------------------------------
  // Recent transactions
  // ---------------------------------------------------------------------

  function Reverse<T>(s: seq<T>): (r: seq<T>)
    ensures |r| == |s|
    ensures forall k :: 0 <= k < |s| ==> r[k] == s[|s| - 1 - k]
  {
    if s == [] then [] else [s[|s| - 1]] + Reverse(s[..|s| - 1])
  }

  /** `slice(-8).reverse()`: the last eight transactions (all of them when
      there are fewer), newest first. */
  function Recent(ts: seq<Transaction>): (r: seq<Transaction>)
    ensures |r| == if |ts| < 8 then |ts| else 8
    ensures forall k :: 0 <= k < |r| ==> r[k] == ts[|ts| - 1 - k]
  {
    var n := if |ts| < 8 then |ts| else 8;
    Reverse(ts[|ts| - n..])
  }

  // ---------------------------------------------------------------------
  // Savings goals
  // ---------------------------------------------------------------------

  /** `(current_amount / target_amount) * 100`: the percentage shown under a
      goal. */
  function GoalProgress(g: SavingsGoal): (p: real)
    requires g.targetAmount > 0
    ensures g.currentAmount >= 0 ==> p >= 0.0
    ensures p <= 100.0 <==> g.currentAmount <= g.targetAmount
    ensures p == 100.0 <==> g.currentAmount == g.targetAmount
  {
    RatioAgainstOne(g.currentAmount as real, g.targetAmount as real);
    g.currentAmount as real / g.targetAmount as real * 100.0
  }

  /** Dividing by a positive target: the ratio is at most 1 exactly when the
      amount is at most the target, and 1 exactly when they are equal. */
  lemma RatioAgainstOne(c: real, t: real)
    requires t > 0.0
    ensures c >= 0.0 ==> c / t >= 0.0
    ensures c / t <= 1.0 <==> c <= t
    ensures c / t == 1.0 <==> c == t
  {
    var r := c / t;
    assert r * t == c;
    assert c - t == (r - 1.0) * t;
  }

  /** `Math.min(progress, 100)`: the width of the bar. */
  function BarWidth(progress: real): (w: real)
    ensures w <= 100.0 && w <= progress
    ensures w == progress || w == 100.0
  {
    if progress < 100.0 then progress else 100.0
  }

  /** The bar is full exactly when the goal is met, and tracks the progress
      below that; the percentage itself may pass 100 while the bar stops. */
  lemma GoalBar(g: SavingsGoal)
    requires g.targetAmount > 0
    ensures BarWidth(GoalProgress(g)) == 100.0 <==> g.currentAmount >= g.targetAmount
    ensures g.currentAmount <= g.targetAmount ==> BarWidth(GoalProgress(g)) == GoalProgress(g)
    ensures g.currentAmount > g.targetAmount ==> GoalProgress(g) > BarWidth(GoalProgress(g))
  {
  }

  // ---------------------------------------------------------------------
  // Demo data
  // ---------------------------------------------------------------------

  /** On the demo transactions the cards show income 4500, expenses 2110 and
      net savings 2390. */
  lemma DemoTotals()
    ensures TotalIncome(DemoData.DemoTransactions) == 4500
    ensures TotalExpenses(DemoData.DemoTransactions) == 2110
    ensures NetSavings(DemoData.DemoTransactions) == 2390
  {
    TotalsOfKindsAndAmounts(DemoData.DemoTransactions);
  }

  /** The demo list as the totals see it: its kinds and amounts, in order. */
  predicate HasDemoKindsAndAmounts(ts: seq<Transaction>) {
    |ts| == 10 &&
    ts[0].kind == Income && ts[0].amount == 3500 &&
    ts[1].kind == Income && ts[1].amount == 800 &&
    ts[2].kind == Expense && ts[2].amount == 1200 &&
    ts[3].kind == Expense && ts[3].amount == 350 &&
    ts[4].kind == Expense && ts[4].amount == 120 &&
    ts[5].kind == Expense && ts[5].amount == 150 &&
    ts[6].kind == Expense && ts[6].amount == 80 &&
    ts[7].kind == Income && ts[7].amount == 200 &&
    ts[8].kind == Expense && ts[8].amount == 60 &&
    ts[9].kind == Expense && ts[9].amount == 150
  }

  lemma DemoFirstTwo(ts: seq<Transaction>)
    requires HasDemoKindsAndAmounts(ts)
    ensures TotalIncome(ts[..2]) == 4300 && TotalExpenses(ts[..2]) == 0
  {
    assert TotalIncome(ts[..0]) == 0 && TotalExpenses(ts[..0]) == 0 by { assert ts[..0] == []; }
    assert TotalIncome(ts[..1]) == 3500 && TotalExpenses(ts[..1]) == 0 by { PrefixTotals(ts, 0); }
    assert TotalIncome(ts[..2]) == 4300 && TotalExpenses(ts[..2]) == 0 by { PrefixTotals(ts, 1); }
  }

  lemma DemoFirstFour(ts: seq<Transaction>)
    requires HasDemoKindsAndAmounts(ts)
    ensures TotalIncome(ts[..4]) == 4300 && TotalExpenses(ts[..4]) == 1550
  {
    DemoFirstTwo(ts);
    assert TotalIncome(ts[..3]) == 4300 && TotalExpenses(ts[..3]) == 1200 by { PrefixTotals(ts, 2); }
    assert TotalIncome(ts[..4]) == 4300 && TotalExpenses(ts[..4]) == 1550 by { PrefixTotals(ts, 3); }
  }

  lemma DemoFirstSeven(ts: seq<Transaction>)
    requires HasDemoKindsAndAmounts(ts)
    ensures TotalIncome(ts[..7]) == 4300 && TotalExpenses(ts[..7]) == 1900
  {
    DemoFirstFour(ts);
    assert TotalIncome(ts[..5]) == 4300 && TotalExpenses(ts[..5]) == 1670 by { PrefixTotals(ts, 4); }
    assert TotalIncome(ts[..6]) == 4300 && TotalExpenses(ts[..6]) == 1820 by { PrefixTotals(ts, 5); }
    assert TotalIncome(ts[..7]) == 4300 && TotalExpenses(ts[..7]) == 1900 by { PrefixTotals(ts, 6); }
  }

  lemma TotalsOfKindsAndAmounts(ts: seq<Transaction>)
    requires HasDemoKindsAndAmounts(ts)
    ensures TotalIncome(ts) == 4500 && TotalExpenses(ts) == 2110
  {
    DemoFirstSeven(ts);
    assert TotalIncome(ts[..8]) == 4500 && TotalExpenses(ts[..8]) == 1900 by { PrefixTotals(ts, 7); }
    assert TotalIncome(ts[..9]) == 4500 && TotalExpenses(ts[..9]) == 1960 by { PrefixTotals(ts, 8); }
    assert TotalIncome(ts[..10]) == 4500 && TotalExpenses(ts[..10]) == 2110 by { PrefixTotals(ts, 9); }
    assert ts[..10] == ts;
  }

  /** One more transaction of the list moves one of the two totals. */
  lemma PrefixTotals(ts: seq<Transaction>, k: nat)
    requires k < |ts|
    ensures TotalIncome(ts[..k + 1]) == TotalIncome(ts[..k]) + (if ts[k].kind == Income then ts[k].amount else 0)
    ensures TotalExpenses(ts[..k + 1]) == TotalExpenses(ts[..k]) + (if ts[k].kind == Expense then ts[k].amount else 0)
  {
    assert ts[..k + 1] == ts[..k] + [ts[k]];
    KindTotalAppend(ts[..k], ts[k], Income);
    KindTotalAppend(ts[..k], ts[k], Expense);
  }
}
