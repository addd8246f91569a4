/** `updateBreakdown`: per category, how many active records there are and what they cost per
    year, listed from the most to the least expensive category. */
module Breakdown {

  import opened Seqs
  import opened Records

  /** One card of the breakdown grid. */
  datatype CategoryTotal = CategoryTotal(category: string, cost: real, count: nat)

  /** `l.category || 'Otro'`. */
  function CategoryKey(r: Record): (cat: string)
    ensures cat != ""
    ensures r.category != "" ==> cat == r.category
  {
    if r.category == "" then "Otro" else r.category
  }

  function InCategory(cat: string): Record -> bool
  {
    r => CategoryKey(r) == cat
  }

  /** The annual cost of the records of one category. */
  function CategoryCost(rs: seq<Record>, cat: string): real
  {
    Sum(Filter(rs, InCategory(cat)), AnnualCost)
  }

  /** The number of records of one category. */
  function CategoryCount(rs: seq<Record>, cat: string): nat
  {
    |Filter(rs, InCategory(cat))|
  }

  function Categories(entries: seq<CategoryTotal>): set<string>
  {
    set k | 0 <= k < |entries| :: entries[k].category
  }

  predicate DistinctCategories(entries: seq<CategoryTotal>)
  {
    forall i, j :: 0 <= i < j < |entries| ==> entries[i].category != entries[j].category
  }

  function SumCounts(entries: seq<CategoryTotal>): nat
  {
    if entries == [] then 0 else entries[0].count + SumCounts(entries[1..])
  }

  /** From the most to the least expensive. */
  predicate SortedByCost(entries: seq<CategoryTotal>)
  {
    forall i, j :: 0 <= i < j < |entries| ==> entries[i].cost >= entries[j].cost
  }

  lemma {:induction false} SumCountsAppend(s: seq<CategoryTotal>, x: CategoryTotal)
    ensures SumCounts(s + [x]) == SumCounts(s) + x.count
  {
    if s == [] {
      assert [] + [x] == [x];
    } else {
      assert (s + [x])[1..] == s[1..] + [x];
      SumCountsAppend(s[1..], x);
    }
  }

  lemma {:induction false} SumCountsUpdate(s: seq<CategoryTotal>, j: nat, y: CategoryTotal)
    requires j < |s|
    ensures SumCounts(s[j := y]) == SumCounts(s) - s[j].count + y.count
  {
    if j > 0 {
      assert s[j := y][1..] == s[1..][j - 1 := y];
      SumCountsUpdate(s[1..], j - 1, y);
    }
  }

  /** Adding one record to the tallied prefix changes only its own category's totals. */
  lemma CategoryStep(rs: seq<Record>, l: Record, cat: string)
    ensures CategoryCost(rs + [l], cat) == CategoryCost(rs, cat) + (if CategoryKey(l) == cat then AnnualCost(l) else 0.0)
    ensures CategoryCount(rs + [l], cat) == CategoryCount(rs, cat) + (if CategoryKey(l) == cat then 1 else 0)
  {
    FilterAppend(rs, [l], InCategory(cat));
    assert Filter([l], InCategory(cat)) == if CategoryKey(l) == cat then [l] else [] by {
      assert [l][1..] == [];
    }
    SumAppend(Filter(rs, InCategory(cat)), Filter([l], InCategory(cat)), AnnualCost);
  }

  /** A category no record has costs nothing and counts nothing. */
  lemma CategoryAbsent(rs: seq<Record>, cat: string)
    requires forall r :: r in rs ==> CategoryKey(r) != cat
    ensures CategoryCost(rs, cat) == 0.0 && CategoryCount(rs, cat) == 0
  {
    FilterEmpty(rs, InCategory(cat));
  }

  /** `map[cat]`: the position of a category's card, or -1 when it has none yet. */
  function IndexOfCategory(entries: seq<CategoryTotal>, cat: string): (j: int)
    ensures -1 <= j < |entries|
    ensures j == -1 <==> forall k :: 0 <= k < |entries| ==> entries[k].category != cat
    ensures j >= 0 ==> entries[j].category == cat
  {
    if entries == [] then -1
    else if entries[0].category == cat then 0
    else
      var k := IndexOfCategory(entries[1..], cat);
      if k == -1 then -1 else k + 1
  }

  lemma AbsentCategory(entries: seq<CategoryTotal>, cat: string)
    requires IndexOfCategory(entries, cat) == -1
    ensures cat !in Categories(entries)
  {
  }

  /** What the category map holds once the records `rs` have been added to it. */
  predicate TalliesOf(entries: seq<CategoryTotal>, rs: seq<Record>)
  {
    && DistinctCategories(entries)
    && (forall k :: 0 <= k < |entries| ==>
         entries[k].cost == CategoryCost(rs, entries[k].category) &&
         entries[k].count == CategoryCount(rs, entries[k].category) && entries[k].count >= 1)
    && (forall r :: r in rs ==> CategoryKey(r) in Categories(entries))
    && SumCounts(entries) == |rs|
  }

  /** The cards' totals follow one more record when each card adds it in exactly when it is of its category. */
  lemma StepTotals(e: seq<CategoryTotal>, rs: seq<Record>, l: Record)
    requires forall k :: 0 <= k < |e| ==>
      e[k].cost == CategoryCost(rs, e[k].category) + (if CategoryKey(l) == e[k].category then AnnualCost(l) else 0.0) &&
      e[k].count == CategoryCount(rs, e[k].category) + (if CategoryKey(l) == e[k].category then 1 else 0)
    ensures forall k :: 0 <= k < |e| ==>
      e[k].cost == CategoryCost(rs + [l], e[k].category) && e[k].count == CategoryCount(rs + [l], e[k].category)
  {
    forall k | 0 <= k < |e|
      ensures e[k].cost == CategoryCost(rs + [l], e[k].category) && e[k].count == CategoryCount(rs + [l], e[k].category)
    {
      CategoryStep(rs, l, e[k].category);
    }
  }

  lemma AppendCategory(entries: seq<CategoryTotal>, x: CategoryTotal)
    requires DistinctCategories(entries) && x.category !in Categories(entries)
    ensures DistinctCategories(entries + [x])
  {
  }

  lemma SameCategories(entries: seq<CategoryTotal>, e: seq<CategoryTotal>)
    requires |e| == |entries| && forall k :: 0 <= k < |e| ==> e[k].category == entries[k].category
    ensures DistinctCategories(entries) ==> DistinctCategories(e)
    ensures Categories(e) == Categories(entries)
  {
    forall c | c in Categories(entries) ensures c in Categories(e) {
      var k :| 0 <= k < |entries| && entries[k].category == c;
      assert e[k].category == c;
    }
  }

  lemma AppendTotals(entries: seq<CategoryTotal>, rs: seq<Record>, l: Record)
    requires forall k :: 0 <= k < |entries| ==>
      entries[k].cost == CategoryCost(rs, entries[k].category) &&
      entries[k].count == CategoryCount(rs, entries[k].category) && entries[k].count >= 1
    requires forall r :: r in rs ==> CategoryKey(r) in Categories(entries)
    requires CategoryKey(l) !in Categories(entries)
    ensures var e := entries + [CategoryTotal(CategoryKey(l), 0.0 + AnnualCost(l), 0 + 1)];
      forall k :: 0 <= k < |e| ==>
        e[k].cost == CategoryCost(rs + [l], e[k].category) &&
        e[k].count == CategoryCount(rs + [l], e[k].category) && e[k].count >= 1
  {
    var cat := CategoryKey(l);
    var e := entries + [CategoryTotal(cat, 0.0 + AnnualCost(l), 0 + 1)];
    forall k | 0 <= k < |e|
      ensures e[k].cost == CategoryCost(rs, e[k].category) + (if cat == e[k].category then AnnualCost(l) else 0.0)
      ensures e[k].count == CategoryCount(rs, e[k].category) + (if cat == e[k].category then 1 else 0)
      ensures e[k].count >= 1
    {
      if k < |entries| {
        assert e[k] == entries[k];
        assert e[k].category in Categories(entries);
      } else {
        CategoryAbsent(rs, cat);
      }
    }
    StepTotals(e, rs, l);
  }

  lemma AppendCovers(entries: seq<CategoryTotal>, rs: seq<Record>, l: Record, x: CategoryTotal)
    requires forall r :: r in rs ==> CategoryKey(r) in Categories(entries)
    requires x.category == CategoryKey(l)
    ensures forall r :: r in rs + [l] ==> CategoryKey(r) in Categories(entries + [x])
  {
    CategoriesAppend(entries, x);
    assert forall r :: r in rs + [l] ==> r in rs || r == l;
  }

  lemma CategoriesAppend(entries: seq<CategoryTotal>, x: CategoryTotal)
    ensures Categories(entries + [x]) == Categories(entries) + {x.category}
  {
    var e := entries + [x];
    assert e[|entries|] == x;
    forall c | c in Categories(entries) ensures c in Categories(e) {
      var k :| 0 <= k < |entries| && entries[k].category == c;
      assert e[k] == entries[k];
    }
  }

  /** A record of a category not yet in the map opens a new card at the end. */
  lemma AppendKeepsTally(entries: seq<CategoryTotal>, rs: seq<Record>, l: Record)
    requires TalliesOf(entries, rs)
    requires CategoryKey(l) !in Categories(entries)
    ensures TalliesOf(entries + [CategoryTotal(CategoryKey(l), 0.0 + AnnualCost(l), 0 + 1)], rs + [l])
  {
    var x := CategoryTotal(CategoryKey(l), 0.0 + AnnualCost(l), 0 + 1);
    SumCountsAppend(entries, x);
    AppendCategory(entries, x);
    AppendTotals(entries, rs, l);
    AppendCovers(entries, rs, l, x);
  }

  /** The card of `l`'s category, with its annual cost and one more added. */
  function Bumped(entries: seq<CategoryTotal>, l: Record, j: nat): CategoryTotal
    requires j < |entries|
  {
    CategoryTotal(CategoryKey(l), entries[j].cost + AnnualCost(l), entries[j].count + 1)
  }

  /** One card after the card at `j` has taken in `l`. */
  lemma UpdateCard(entries: seq<CategoryTotal>, rs: seq<Record>, l: Record, j: nat, k: nat)
    requires j < |entries| && k < |entries| && entries[j].category == CategoryKey(l)
    requires k != j ==> entries[k].category != entries[j].category
    requires entries[k].cost == CategoryCost(rs, entries[k].category)
    requires entries[k].count == CategoryCount(rs, entries[k].category) && entries[k].count >= 1
    ensures entries[j := Bumped(entries, l, j)][k].cost == CategoryCost(rs + [l], entries[k].category)
    ensures entries[j := Bumped(entries, l, j)][k].count == CategoryCount(rs + [l], entries[k].category)
    ensures entries[j := Bumped(entries, l, j)][k].count >= 1
  {
    CategoryStep(rs, l, entries[k].category);
  }

  lemma UpdateTotals(entries: seq<CategoryTotal>, rs: seq<Record>, l: Record, j: nat)
    requires TalliesOf(entries, rs)
    requires j < |entries| && entries[j].category == CategoryKey(l)
    ensures var e := entries[j := Bumped(entries, l, j)];
      forall k :: 0 <= k < |e| ==>
        e[k].cost == CategoryCost(rs + [l], e[k].category) &&
        e[k].count == CategoryCount(rs + [l], e[k].category) && e[k].count >= 1
  {
    var e := entries[j := Bumped(entries, l, j)];
    forall k | 0 <= k < |e|
      ensures e[k].cost == CategoryCost(rs + [l], e[k].category)
      ensures e[k].count == CategoryCount(rs + [l], e[k].category) && e[k].count >= 1
    {
      assert k != j ==> entries[k].category != entries[j].category;
      UpdateCard(entries, rs, l, j, k);
      assert e[k].category == entries[k].category;
    }
  }

  /** A record of a category already in the map adds to that card only. */
  lemma UpdateKeepsTally(entries: seq<CategoryTotal>, rs: seq<Record>, l: Record, j: nat)
    requires TalliesOf(entries, rs)
    requires j < |entries| && entries[j].category == CategoryKey(l)
    ensures TalliesOf(entries[j := Bumped(entries, l, j)], rs + [l])
  {
    var y := Bumped(entries, l, j);
    var e := entries[j := y];
    SumCountsUpdate(entries, j, y);
    SameCategories(entries, e);
    UpdateTotals(entries, rs, l, j);
    assert forall r :: r in rs + [l] ==> r in rs || r == l;
  }

  /** The `forEach` that fills the category map, one card per category in order of first appearance. */
  method Tally(active: seq<Record>) returns (entries: seq<CategoryTotal>)
    ensures TalliesOf(entries, active)
  {
    entries := [];
    var i := 0;
    while i < |active|
      invariant 0 <= i <= |active|
      invariant TalliesOf(entries, active[..i])
    {
      entries := AddRecord(entries, active, i);
      i := i + 1;
    }
    assert active[..i] == active;
  }

  /** The body of that `forEach` for the record at `i`: open its card if needed, then add its
      annual cost and one to its count. */
  method AddRecord(entries: seq<CategoryTotal>, active: seq<Record>, i: nat) returns (updated: seq<CategoryTotal>)
    requires i < |active| && TalliesOf(entries, active[..i])
    ensures TalliesOf(updated, active[..i + 1])
  {
    var l := active[i];
    assert active[..i + 1] == active[..i] + [l];
    var cat := CategoryKey(l);
    var j := IndexOfCategory(entries, cat);
    if j == -1 {
      AbsentCategory(entries, cat);
      AppendKeepsTally(entries, active[..i], l);
      updated := entries + [CategoryTotal(cat, 0.0 + AnnualCost(l), 0 + 1)];
    } else {
      UpdateKeepsTally(entries, active[..i], l, j);
      updated := entries[j := Bumped(entries, l, j)];
    }
  }

  /** Places `x` before the first card that costs no more: a stable descending insertion. */
  function Insert(x: CategoryTotal, s: seq<CategoryTotal>): seq<CategoryTotal>
  {
    if s == [] || x.cost >= s[0].cost then [x] + s else [s[0]] + Insert(x, s[1..])
  }

  /** `entries.sort((a, b) => b[1].cost - a[1].cost)`, as a stable insertion sort. */
  function SortByCost(s: seq<CategoryTotal>): (sorted: seq<CategoryTotal>)
    ensures |sorted| == |s| && multiset(sorted) == multiset(s)
  {
    if s == [] then []
    else
      InsertElements(s[0], SortByCost(s[1..]));
      assert s == [s[0]] + s[1..];
      Insert(s[0], SortByCost(s[1..]))
  }

  lemma {:induction false} InsertElements(x: CategoryTotal, s: seq<CategoryTotal>)
    ensures multiset(Insert(x, s)) == multiset(s) + multiset{x}
    ensures |Insert(x, s)| == |s| + 1
    ensures SumCounts(Insert(x, s)) == SumCounts(s) + x.count
  {
    if s != [] && x.cost < s[0].cost {
      InsertElements(x, s[1..]);
      assert s == [s[0]] + s[1..];
    }
  }

  lemma InsertMember(x: CategoryTotal, s: seq<CategoryTotal>, e: CategoryTotal)
    ensures e in Insert(x, s) <==> e == x || e in s
  {
    InsertElements(x, s);
    assert e in Insert(x, s) <==> e in multiset(Insert(x, s));
  }

  lemma {:induction false} InsertSorted(x: CategoryTotal, s: seq<CategoryTotal>)
    requires SortedByCost(s)
    ensures SortedByCost(Insert(x, s))
  {
    if s != [] && x.cost < s[0].cost {
      var t := Insert(x, s[1..]);
      InsertSorted(x, s[1..]);
      forall k | 0 <= k < |t| ensures s[0].cost >= t[k].cost {
        InsertMember(x, s[1..], t[k]);
      }
    }
  }

  lemma {:induction false} InsertDistinct(x: CategoryTotal, s: seq<CategoryTotal>)
    requires DistinctCategories(s)
    requires forall k :: 0 <= k < |s| ==> s[k].category != x.category
    ensures DistinctCategories(Insert(x, s))
  {
    if s != [] && x.cost < s[0].cost {
      var t := Insert(x, s[1..]);
      InsertDistinct(x, s[1..]);
      forall k | 0 <= k < |t| ensures t[k].category != s[0].category {
        InsertMember(x, s[1..], t[k]);
      }
    }
  }

  lemma {:induction false} SortByCostCounts(s: seq<CategoryTotal>)
    ensures SumCounts(SortByCost(s)) == SumCounts(s)
  {
    if s != [] {
      SortByCostCounts(s[1..]);
      InsertElements(s[0], SortByCost(s[1..]));
      assert s == [s[0]] + s[1..];
    }
  }

  lemma {:induction false} SortByCostSorted(s: seq<CategoryTotal>)
    ensures SortedByCost(SortByCost(s))
  {
    if s != [] {
      SortByCostSorted(s[1..]);
      InsertSorted(s[0], SortByCost(s[1..]));
    }
  }

  lemma {:induction false} SortByCostDistinct(s: seq<CategoryTotal>)
    requires DistinctCategories(s)
    ensures DistinctCategories(SortByCost(s))
  {
    if s != [] {
      var t := SortByCost(s[1..]);
      SortByCostDistinct(s[1..]);
      SortByCostCounts(s[1..]);
      forall k | 0 <= k < |t| ensures t[k].category != s[0].category {
        assert t[k] in multiset(s[1..]);
      }
      InsertDistinct(s[0], t);
    }
  }

  /** The sorted cards are the same cards, in descending order of cost. */
  lemma SortByCostFacts(s: seq<CategoryTotal>)
    ensures |SortByCost(s)| == |s|
    ensures multiset(SortByCost(s)) == multiset(s)
    ensures SortedByCost(SortByCost(s))
    ensures SumCounts(SortByCost(s)) == SumCounts(s)
    ensures DistinctCategories(s) ==> DistinctCategories(SortByCost(s))
  {
    SortByCostCounts(s);
    SortByCostSorted(s);
    if DistinctCategories(s) {
      SortByCostDistinct(s);
    }
  }

  /** `updateBreakdown` up to the markup: one card per category of the active records, with the
      category's annual cost and record count, most expensive first; the counts add up to the
      number of active records. */
  method CategoryBreakdown(active: seq<Record>) returns (entries: seq<CategoryTotal>)
    ensures SortedByCost(entries)
    ensures DistinctCategories(entries)
    ensures forall e :: e in entries ==>
      e.cost == CategoryCost(active, e.category) && e.count == CategoryCount(active, e.category) && e.count >= 1
    ensures forall r :: r in active ==> CategoryKey(r) in Categories(entries)
    ensures SumCounts(entries) == |active|
  {
    var tally := Tally(active);
    entries := SortByCost(tally);
    SortByCostFacts(tally);
    forall e | e in entries
      ensures e.cost == CategoryCost(active, e.category) && e.count == CategoryCount(active, e.category) && e.count >= 1
    {
      assert e in multiset(tally);
    }
    forall r | r in active ensures CategoryKey(r) in Categories(entries) {
      var k :| 0 <= k < |tally| && tally[k].category == CategoryKey(r);
      assert tally[k] in multiset(entries);
    }
  }
}
