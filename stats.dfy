/** `updateStats`: the figures of the dashboard computed from the records of one tab, the
    stored income and the stored savings goal. */
module Stats {

  import opened Seqs
  import opened Text
  import opened Records
  import opened View
  import opened Savings
  import opened Breakdown

  /** `(l.currency || 'USD').toUpperCase()`: the currency a record is grouped under. */
  function CurrencyKey(r: Record): (cur: string)
    ensures r.currency == "" ==> cur == "USD"
    ensures r.currency != "" ==> |cur| == |r.currency|
  {
    Upper(if r.currency == "" then "USD" else r.currency)
  }

  /** A written currency is grouped under its upper-case spelling, letter by letter. */
  lemma CurrencyKeyLetters(r: Record)
    requires r.currency != ""
    ensures forall i :: 0 <= i < |CurrencyKey(r)| ==> CurrencyKey(r)[i] == UpperChar(r.currency[i])
  {
  }

  function InCurrency(cur: string): Record -> bool
  {
    r => CurrencyKey(r) == cur
  }

  /** The total of `f` over the records grouped under one currency. */
  function CurrencyTotal(rs: seq<Record>, cur: string, f: Record -> real): real
  {
    Sum(Filter(rs, InCurrency(cur)), f)
  }

  function Currencies(rs: seq<Record>): set<string>
  {
    set r | r in rs :: CurrencyKey(r)
  }

  /** `m` has one line per currency of `rs`, holding the total of `f` over that currency's records. */
  predicate GroupsOf(m: map<string, real>, rs: seq<Record>, f: Record -> real)
  {
    m.Keys == Currencies(rs) && forall cur :: cur in m ==> m[cur] == CurrencyTotal(rs, cur, f)
  }

  lemma CurrencyStep(rs: seq<Record>, l: Record, cur: string, f: Record -> real)
    ensures CurrencyTotal(rs + [l], cur, f) == CurrencyTotal(rs, cur, f) + (if CurrencyKey(l) == cur then f(l) else 0.0)
  {
    FilterAppend(rs, [l], InCurrency(cur));
    assert Filter([l], InCurrency(cur)) == if CurrencyKey(l) == cur then [l] else [] by {
      assert [l][1..] == [];
    }
    SumAppend(Filter(rs, InCurrency(cur)), Filter([l], InCurrency(cur)), f);
  }

  lemma CurrencyAbsent(rs: seq<Record>, cur: string, f: Record -> real)
    requires cur !in Currencies(rs)
    ensures CurrencyTotal(rs, cur, f) == 0.0
  {
    FilterEmpty(rs, InCurrency(cur));
  }

  /** `byCur[cur] = (byCur[cur] || 0) + amount`. */
  function AddTo(m: map<string, real>, cur: string, amount: real): map<string, real>
  {
    m[cur := (if cur in m then m[cur] else 0.0) + amount]
  }

  lemma CurrenciesAppend(rs: seq<Record>, l: Record)
    ensures Currencies(rs + [l]) == Currencies(rs) + {CurrencyKey(l)}
  {
    forall cur | cur in Currencies(rs + [l]) ensures cur in Currencies(rs) + {CurrencyKey(l)} {
      var r :| r in rs + [l] && CurrencyKey(r) == cur;
      assert r in rs || r == l;
    }
    forall cur | cur in Currencies(rs) ensures cur in Currencies(rs + [l]) {
      var r :| r in rs && CurrencyKey(r) == cur;
      assert r in rs + [l];
    }
    assert l in rs + [l];
  }

  /** One line of the map after adding a record's amount under its currency. */
  lemma AddKeepsLine(m: map<string, real>, rs: seq<Record>, l: Record, f: Record -> real, cur: string)
    requires cur in m <==> cur in Currencies(rs)
    requires cur in m ==> m[cur] == CurrencyTotal(rs, cur, f)
    requires cur in AddTo(m, CurrencyKey(l), f(l))
    ensures AddTo(m, CurrencyKey(l), f(l))[cur] == CurrencyTotal(rs + [l], cur, f)
  {
    var key := CurrencyKey(l);
    var t := CurrencyTotal(rs, cur, f);
    CurrencyStep(rs, l, cur, f);
    if cur != key {
      assert cur in m && m[cur] == t;
      assert CurrencyTotal(rs + [l], cur, f) == t + 0.0;
    } else if cur in m {
      assert m[cur] == t;
      assert CurrencyTotal(rs + [l], cur, f) == t + f(l);
    } else {
      CurrencyAbsent(rs, cur, f);
      assert CurrencyTotal(rs + [l], cur, f) == 0.0 + f(l);
    }
  }

  /** Adding a record's amount under its currency keeps the map equal to the grouped totals. */
  lemma AddKeepsGroups(m: map<string, real>, rs: seq<Record>, l: Record, f: Record -> real)
    requires GroupsOf(m, rs, f)
    ensures GroupsOf(AddTo(m, CurrencyKey(l), f(l)), rs + [l], f)
  {
    var m' := AddTo(m, CurrencyKey(l), f(l));
    CurrenciesAppend(rs, l);
    assert m'.Keys == m.Keys + {CurrencyKey(l)};
    forall cur | cur in m' ensures m'[cur] == CurrencyTotal(rs + [l], cur, f) {
      AddKeepsLine(m, rs, l, f, cur);
    }
  }

  /** The first `forEach` of `updateStats`: annual and monthly totals per currency. */
  method GroupByCurrency(active: seq<Record>) returns (annualByCur: map<string, real>, monthlyByCur: map<string, real>)
    ensures GroupsOf(annualByCur, active, AnnualCost)
    ensures GroupsOf(monthlyByCur, active, MonthlyCost)
  {
    annualByCur, monthlyByCur := map[], map[];
    var i := 0;
    while i < |active|
      invariant 0 <= i <= |active|
      invariant GroupsOf(annualByCur, active[..i], AnnualCost)
      invariant GroupsOf(monthlyByCur, active[..i], MonthlyCost)
    {
      annualByCur := AddGrouped(annualByCur, active, i, AnnualCost);
      monthlyByCur := AddGrouped(monthlyByCur, active, i, MonthlyCost);
      i := i + 1;
    }
    assert active[..i] == active;
  }

  /** One turn of that loop for one of the two maps: the `i`-th record's amount is added under its currency. */
  method AddGrouped(byCur: map<string, real>, active: seq<Record>, i: nat, f: Record -> real) returns (updated: map<string, real>)
    requires i < |active| && GroupsOf(byCur, active[..i], f)
    ensures GroupsOf(updated, active[..i + 1], f)
  {
    var l := active[i];
    assert active[..i + 1] == active[..i] + [l];
    AddKeepsGroups(byCur, active[..i], l, f);
    updated := AddTo(byCur, CurrencyKey(l), f(l));
  }

  /** The fixed estimate of pesos per dollar used for the balance. */
  const UsdRate: real := 20.0

  /** A record's monthly cost in the unit of the balance: multiplied by the rate when its
      currency is written exactly `USD`. */
  function ConvertedMonthly(r: Record): (c: real)
    ensures r.currency == "USD" ==> c == UsdRate * MonthlyCost(r)
    ensures r.currency != "USD" ==> c == MonthlyCost(r)
  {
    var c := MonthlyCost(r);
    if r.currency == "USD" then c * UsdRate else c
  }

  /** The rate applies to exactly the records whose currency is the text `USD`, case included. */
  lemma OnlyExactUsdIsConverted(r: Record)
    requires MonthlyCost(r) != 0.0
    ensures ConvertedMonthly(r) == UsdRate * MonthlyCost(r) <==> r.currency == "USD"
    ensures ConvertedMonthly(r) != UsdRate * MonthlyCost(r) ==> ConvertedMonthly(r) == MonthlyCost(r)
  {
  }

  /** A record written in `usd` is grouped with the dollar records but its cost is not converted. */
  lemma LowercaseUsdGroupedButNotConverted(r: Record)
    requires r.currency == "usd"
    ensures CurrencyKey(r) == "USD"
    ensures ConvertedMonthly(r) == MonthlyCost(r)
  {
    assert Upper("usd") == "USD" by {
      var u := Upper("usd");
      assert u[0] == UpperChar('u') && u[1] == UpperChar('s') && u[2] == UpperChar('d');
    }
  }

  /** The records whose cost is projected over the year, those not marked as daily. */
  predicate IsProjected(r: Record)
  {
    !r.isDaily
  }

  predicate IsDailyExpense(r: Record)
  {
    r.isDaily
  }

  /** One more record adds its converted cost to the outgoings, and to the projected ones when it is not daily. */
  lemma OutgoingsStep(rs: seq<Record>, l: Record)
    ensures Sum(rs + [l], ConvertedMonthly) == Sum(rs, ConvertedMonthly) + ConvertedMonthly(l)
    ensures Sum(Filter(rs + [l], IsProjected), ConvertedMonthly) ==
      Sum(Filter(rs, IsProjected), ConvertedMonthly) + (if l.isDaily then 0.0 else ConvertedMonthly(l))
  {
    assert [l][1..] == [];
    SumAppend(rs, [l], ConvertedMonthly);
    FilterAppend(rs, [l], IsProjected);
    SumAppend(Filter(rs, IsProjected), Filter([l], IsProjected), ConvertedMonthly);
  }

  /** The second `forEach`: the converted monthly outgoings, all of them and the projected ones. */
  method MonthlyOutgoings(active: seq<Record>) returns (totalMonthlyOut: real, totalMonthlyProyectable: real)
    ensures totalMonthlyOut == Sum(active, ConvertedMonthly)
    ensures totalMonthlyProyectable == Sum(Filter(active, IsProjected), ConvertedMonthly)
  {
    totalMonthlyOut, totalMonthlyProyectable := 0.0, 0.0;
    var i := 0;
    while i < |active|
      invariant 0 <= i <= |active|
      invariant totalMonthlyOut == Sum(active[..i], ConvertedMonthly)
      invariant totalMonthlyProyectable == Sum(Filter(active[..i], IsProjected), ConvertedMonthly)
    {
      var l := active[i];
      var cost := MonthlyCost(l);
      if l.currency == "USD" {
        cost := cost * UsdRate;
      }
      assert cost == ConvertedMonthly(l);
      assert active[..i + 1] == active[..i] + [l];
      OutgoingsStep(active[..i], l);
      totalMonthlyOut := totalMonthlyOut + cost;
      if !l.isDaily {
        totalMonthlyProyectable := totalMonthlyProyectable + cost;
      }
      i := i + 1;
    }
    assert active[..i] == active;
  }

  /** `projectedYear`: twelve months of income and of projected outgoings, less this month's
      daily expenses once. */
  function ProjectedYear(income: real, totalMonthlyOut: real, totalMonthlyProyectable: real): (p: real)
    ensures p == 12.0 * (income - totalMonthlyOut) + 11.0 * (totalMonthlyOut - totalMonthlyProyectable)
  {
    var dailyExpenses := totalMonthlyOut - totalMonthlyProyectable;
    (income * 12.0) - (totalMonthlyProyectable * 12.0) - dailyExpenses
  }

  /** The outgoings split into the projected and the daily ones. */
  lemma OutgoingsSplit(active: seq<Record>)
    ensures Sum(active, ConvertedMonthly) ==
      Sum(Filter(active, IsProjected), ConvertedMonthly) + Sum(Filter(active, IsDailyExpense), ConvertedMonthly)
  {
    SumPartition(active, ConvertedMonthly, IsProjected, IsDailyExpense);
  }

  /** The projection multiplies the recurring outgoings by twelve and counts the daily ones once. */
  lemma ProjectionCountsDailyOnce(active: seq<Record>, income: real)
    ensures ProjectedYear(income, Sum(active, ConvertedMonthly), Sum(Filter(active, IsProjected), ConvertedMonthly)) ==
      12.0 * income - 12.0 * Sum(Filter(active, IsProjected), ConvertedMonthly) - Sum(Filter(active, IsDailyExpense), ConvertedMonthly)
  {
    OutgoingsSplit(active);
  }

  /** Without daily expenses the year is twelve months of the current balance. */
  lemma NoDailyProjectsTwelveBalances(active: seq<Record>, income: real)
    requires forall i :: 0 <= i < |active| ==> !active[i].isDaily
    ensures ProjectedYear(income, Sum(active, ConvertedMonthly), Sum(Filter(active, IsProjected), ConvertedMonthly)) ==
      12.0 * (income - Sum(active, ConvertedMonthly))
  {
    FilterKeepsAll(active, IsProjected);
  }

  /** With no negative costs the projected outgoings never exceed all outgoings, and both are
      non-negative. */
  lemma ProjectedAtMostTotal(active: seq<Record>)
    requires forall i :: 0 <= i < |active| ==> CostValue(active[i]) >= 0.0
    ensures 0.0 <= Sum(Filter(active, IsProjected), ConvertedMonthly) <= Sum(active, ConvertedMonthly)
  {
    OutgoingsSplit(active);
    FilterElementsFrom(active, IsProjected);
    FilterElementsFrom(active, IsDailyExpense);
    SumNonNegative(Filter(active, IsProjected), ConvertedMonthly);
    SumNonNegative(Filter(active, IsDailyExpense), ConvertedMonthly);
  }

  function RenewsSoon(today: int): Record -> bool
  {
    r => RenewsWithin30(r, today)
  }

  /** `renewals`: the active records due today or within the next 30 days, in stored order. */
  function Renewals(active: seq<Record>, today: int): (renewals: seq<Record>)
    ensures |renewals| <= |active|
    ensures forall i :: 0 <= i < |renewals| ==> RenewsWithin30(renewals[i], today)
  {
    Filter(active, RenewsSoon(today))
  }

  /** The renewals counted on the dashboard are exactly the rows the table marks as due soon. */
  lemma RenewalsAreSoonRows(licenses: seq<Record>, today: int, r: Record)
    ensures r in Renewals(ActiveRecords(licenses), today) <==>
      r in licenses && r.status == Active && RenewsWithin30(r, today)
    ensures r in Renewals(ActiveRecords(licenses), today) <==>
      r in licenses && UrgencyClass(UrgencyOf(r, today)) == "soon"
  {
    FilterMembership(ActiveRecords(licenses), RenewsSoon(today), r);
    FilterMembership(licenses, IsActive, r);
    UrgencyClassification(r, today);
  }

  /** The renewal banner: up to three names and whether more renewals follow. */
  datatype Banner = Hidden | Shown(count: nat, names: seq<string>, more: bool)

  function RenewalBanner(renewals: seq<Record>): (b: Banner)
    ensures b.Hidden? <==> renewals == []
    ensures b.Shown? ==> b.count == |renewals| && |b.names| == if |renewals| < 3 then |renewals| else 3
    ensures b.Shown? ==> (forall i :: 0 <= i < |b.names| ==> b.names[i] == renewals[i].name) && (b.more <==> |renewals| > 3)
  {
    if |renewals| > 0 then
      Shown(|renewals|, Names(renewals[..if |renewals| < 3 then |renewals| else 3]), |renewals| > 3)
    else Hidden
  }

  /** Everything `updateStats` displays. */
  datatype Dashboard = Dashboard(
    annualByCur: map<string, real>,
    monthlyByCur: map<string, real>,
    totalMonthlyOut: real,
    totalMonthlyProyectable: real,
    income: real,
    balance: real,
    projectedYear: real,
    plan: SavingsPlan,
    activeCount: nat,
    recordCount: nat,
    renewalCount: nat,
    banner: Banner,
    breakdown: seq<CategoryTotal>)

  /** What `updateStats` shows for the loaded records, income and goal. */
  predicate DashboardOf(d: Dashboard, licenses: seq<Record>, income: real, goal: SavingsGoal, today: int)
  {
    && GroupsOf(d.annualByCur, ActiveRecords(licenses), AnnualCost)
    && GroupsOf(d.monthlyByCur, ActiveRecords(licenses), MonthlyCost)
    && d.totalMonthlyOut == Sum(ActiveRecords(licenses), ConvertedMonthly)
    && d.totalMonthlyProyectable == Sum(Filter(ActiveRecords(licenses), IsProjected), ConvertedMonthly)
    && d.income == income && d.balance == income - d.totalMonthlyOut
    && d.projectedYear == ProjectedYear(income, d.totalMonthlyOut, d.totalMonthlyProyectable)
    && d.plan == Plan(goal, income, d.balance, ActiveRecords(licenses))
    && d.activeCount == |ActiveRecords(licenses)| && d.recordCount == |licenses|
    && d.renewalCount == |Renewals(ActiveRecords(licenses), today)|
    && d.banner == RenewalBanner(Renewals(ActiveRecords(licenses), today))
    && SortedByCost(d.breakdown) && DistinctCategories(d.breakdown)
    && (forall e :: e in d.breakdown ==>
         e.cost == CategoryCost(ActiveRecords(licenses), e.category) &&
         e.count == CategoryCount(ActiveRecords(licenses), e.category) && e.count >= 1)
    && (forall r :: r in ActiveRecords(licenses) ==> CategoryKey(r) in Categories(d.breakdown))
    && SumCounts(d.breakdown) == d.activeCount
  }

  /** `updateStats` on the loaded records, income and goal. */
  method UpdateStats(licenses: seq<Record>, income: real, goal: SavingsGoal, today: int) returns (d: Dashboard)
    ensures DashboardOf(d, licenses, income, goal, today)
  {
    var active := ActiveRecords(licenses);
    var annualByCur, monthlyByCur := GroupByCurrency(active);
    var renewals := Renewals(active, today);
    var totalMonthlyOut, totalMonthlyProyectable := MonthlyOutgoings(active);
    var balance := income - totalMonthlyOut;
    var projectedYear := ProjectedYear(income, totalMonthlyOut, totalMonthlyProyectable);
    var plan := Plan(goal, income, balance, active);
    var breakdown := CategoryBreakdown(active);
    d := Dashboard(annualByCur, monthlyByCur, totalMonthlyOut, totalMonthlyProyectable, income, balance,
      projectedYear, plan, |active|, |licenses|, |renewals|, RenewalBanner(renewals), breakdown);
  }
}
