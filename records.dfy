/** The expense record ("licencia") and the rules derived from one record alone:
    its monthly- and annual-equivalent cost and the days left until its renewal. */
module Records {

  import opened Wrappers
  import opened Seqs

  /** `billingCycle`; a value the editor never writes is kept as its raw text. */
  datatype Cycle = Monthly | Annual | OneTime | OtherCycle(raw: string)

  /** `status`; a value the editor never writes is kept as its raw text. */
  datatype Status = Active | Expired | Cancelled | OtherStatus(raw: string)

  /** One stored record. Text fields that JavaScript may hold as `undefined` are `""` here;
      `cost` is `None` when `parseFloat` yields `NaN`; dates are day numbers. */
  datatype Record = Record(
    id: string,
    name: string,
    vendor: string,
    category: string,
    cost: Option<real>,
    currency: string,
    billingCycle: Cycle,
    purchaseDate: Option<int>,
    nextRenewal: Option<int>,
    paymentMethod: string,
    status: Status,
    notes: string,
    isDaily: bool)

  /** `parseFloat(l.cost) || 0`. */
  function CostValue(r: Record): (c: real)
    ensures r.cost.None? ==> c == 0.0
    ensures r.cost.Some? ==> c == r.cost.value
  {
    r.cost.GetOr(0.0)
  }

  predicate IsRecurring(c: Cycle)
  {
    c == Monthly || c == Annual
  }

  /** `monthlyCost`: what the record costs per month; a non-recurring cycle costs nothing per month. */
  function MonthlyCost(r: Record): (m: real)
    ensures !IsRecurring(r.billingCycle) ==> m == 0.0
    ensures r.billingCycle == Annual ==> 12.0 * m == CostValue(r)
    ensures CostValue(r) >= 0.0 ==> m >= 0.0
  {
    var c := CostValue(r);
    if r.billingCycle == Monthly then c
    else if r.billingCycle == Annual then c / 12.0
    else 0.0
  }

  /** `annualCost`: what the record costs per year; a non-recurring cost counts once. */
  function AnnualCost(r: Record): (a: real)
    ensures IsRecurring(r.billingCycle) ==> a == 12.0 * MonthlyCost(r)
    ensures r.billingCycle != Monthly ==> a == CostValue(r)
    ensures CostValue(r) >= 0.0 ==> a >= 0.0
  {
    var c := CostValue(r);
    if r.billingCycle == Monthly then c * 12.0
    else if r.billingCycle == Annual then c
    else c
  }

  /** The normalisation table, cycle by cycle, and the unparseable cost counting as zero. */
  lemma CycleTable(r: Record)
    ensures r.billingCycle == Monthly ==> MonthlyCost(r) == CostValue(r) && AnnualCost(r) == 12.0 * CostValue(r)
    ensures r.billingCycle == Annual ==> MonthlyCost(r) == CostValue(r) / 12.0 && AnnualCost(r) == CostValue(r)
    ensures !IsRecurring(r.billingCycle) ==> MonthlyCost(r) == 0.0 && AnnualCost(r) == CostValue(r)
    ensures r.cost.None? ==> MonthlyCost(r) == 0.0 && AnnualCost(r) == 0.0
  {
  }

  /** `daysUntil`: `None` without a date, otherwise the signed number of days from `today`
      (negative when the date has passed). */
  function DaysUntil(date: Option<int>, today: int): (d: Option<int>)
    ensures d.None? <==> date.None?
    ensures d.Some? ==> today + d.value == date.value
  {
    match date
    case None => None
    case Some(due) => Some(due - today)
  }

  /** The renewal window of the statistics and of the "soon" badge: due today or within 30 days. */
  predicate RenewsWithin30(r: Record, today: int)
  {
    var d := DaysUntil(r.nextRenewal, today);
    d.Some? && 0 <= d.value <= 30
  }

  predicate IsActive(r: Record)
  {
    r.status == Active
  }

  /** `licenses.filter(l => l.status === 'active')`. */
  function ActiveRecords(rs: seq<Record>): (active: seq<Record>)
    ensures forall i :: 0 <= i < |active| ==> active[i].status == Active
    ensures forall r :: r in active <==> r in rs && r.status == Active
    ensures forall r :: multiset(active)[r] == if r.status == Active then multiset(rs)[r] else 0
  {
    forall r ensures r in Filter(rs, IsActive) <==> r in rs && r.status == Active {
      FilterMembership(rs, IsActive, r);
    }
    forall r ensures multiset(Filter(rs, IsActive))[r] == if r.status == Active then multiset(rs)[r] else 0 {
      FilterMultiplicity(rs, IsActive, r);
    }
    Filter(rs, IsActive)
  }

  /** The active records keep their stored order. */
  lemma ActiveRecordsInOrder(rs: seq<Record>)
    ensures IsSubsequence(ActiveRecords(rs), rs)
  {
    FilterIsSubsequence(rs, IsActive);
  }
}
