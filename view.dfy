/** The table view: which records `renderTable` shows for the search box and the two
    drop-down filters, and the renewal badge each shown record gets. */
module View {

  import opened Wrappers
  import opened Seqs
  import opened Text
  import opened Records

  /** The three filter controls: the search text as typed, the category (`""` for all)
      and the status (`None` for all). */
  datatype Query = Query(search: string, category: string, status: Option<Status>)

  /** `matchSearch`: the lower-cased search text occurs in the lower-cased name, vendor or category. */
  predicate MatchesSearch(r: Record, search: string)
  {
    var s := Lower(search);
    s == "" || Contains(Lower(r.name), s) || Contains(Lower(r.vendor), s) || Contains(Lower(r.category), s)
  }

  predicate MatchesCategory(r: Record, category: string)
  {
    category == "" || r.category == category
  }

  predicate MatchesStatus(r: Record, status: Option<Status>)
  {
    status.None? || r.status == status.value
  }

  /** The predicate passed to `licenses.filter`. */
  predicate Matches(r: Record, q: Query)
  {
    MatchesSearch(r, q.search) && MatchesCategory(r, q.category) && MatchesStatus(r, q.status)
  }

  function MatchesQuery(q: Query): Record -> bool
  {
    r => Matches(r, q)
  }

  /** `licenses.filter(...)` of `renderTable`: only matching records, never more than stored. */
  function FilterRecords(rs: seq<Record>, q: Query): (shown: seq<Record>)
    ensures |shown| <= |rs|
    ensures forall i :: 0 <= i < |shown| ==> Matches(shown[i], q)
  {
    Filter(rs, MatchesQuery(q))
  }

  /** The shown records are the matching ones, each as often as stored, in stored order. */
  lemma FilterRecordsCorrect(rs: seq<Record>, q: Query)
    ensures IsSubsequence(FilterRecords(rs, q), rs)
    ensures forall r :: r in FilterRecords(rs, q) <==> r in rs && Matches(r, q)
    ensures forall r :: multiset(FilterRecords(rs, q))[r] == if Matches(r, q) then multiset(rs)[r] else 0
  {
    var p := MatchesQuery(q);
    FilterIsSubsequence(rs, p);
    forall r ensures r in FilterRecords(rs, q) <==> r in rs && Matches(r, q) {
      FilterMembership(rs, p, r);
    }
    forall r ensures multiset(FilterRecords(rs, q))[r] == if Matches(r, q) then multiset(rs)[r] else 0 {
      FilterMultiplicity(rs, p, r);
    }
  }

  /** With an empty search box and both drop-downs on "all", every record is shown. */
  lemma EmptyQueryShowsAll(rs: seq<Record>)
    ensures FilterRecords(rs, Query("", "", None)) == rs
  {
    FilterKeepsAll(rs, MatchesQuery(Query("", "", None)));
  }

  /** Searching is case-insensitive: two search texts equal up to case show the same records. */
  lemma SearchIgnoresCase(rs: seq<Record>, q: Query, search: string)
    requires Lower(search) == Lower(q.search)
    ensures FilterRecords(rs, q.(search := search)) == FilterRecords(rs, q)
  {
    FilterCongruent(rs, MatchesQuery(q.(search := search)), MatchesQuery(q));
  }

  /** The renewal badge of one row. */
  datatype Urgency =
    | NoBadge
    | Overdue(daysLate: nat)       // "Vencido hace Nd"
    | DueThisWeek(days: nat)       // "Hoy" or "En Nd", 0 <= N <= 7
    | DueThisMonth(days: nat)      // "En Nd", 8 <= N <= 30

  function UrgencyOf(r: Record, today: int): (u: Urgency)
    ensures r.status != Active || r.nextRenewal.None? ==> u == NoBadge
    ensures u.Overdue? ==> u.daysLate > 0
    ensures u.DueThisWeek? ==> u.days <= 7
    ensures u.DueThisMonth? ==> 8 <= u.days <= 30
  {
    var d := DaysUntil(r.nextRenewal, today);
    if d.None? || r.status != Active then NoBadge
    else if d.value < 0 then Overdue(-d.value)
    else if d.value <= 7 then DueThisWeek(d.value)
    else if d.value <= 30 then DueThisMonth(d.value)
    else NoBadge
  }

  /** The CSS class of the renewal cell. */
  function UrgencyClass(u: Urgency): string
  {
    match u
    case NoBadge => ""
    case Overdue(_) => "overdue"
    case DueThisWeek(_) => "soon"
    case DueThisMonth(_) => "soon"
  }

  /** A row is marked overdue exactly when the record is active and its date has passed, and is
      marked soon exactly when it is active and falls in the 30-day renewal window of the statistics. */
  lemma UrgencyClassification(r: Record, today: int)
    ensures UrgencyClass(UrgencyOf(r, today)) == "overdue" <==>
      r.status == Active && r.nextRenewal.Some? && r.nextRenewal.value < today
    ensures UrgencyClass(UrgencyOf(r, today)) == "soon" <==> r.status == Active && RenewsWithin30(r, today)
    ensures UrgencyOf(r, today).Overdue? ==> today - UrgencyOf(r, today).daysLate == r.nextRenewal.value
    ensures UrgencyOf(r, today).DueThisWeek? ==> today + UrgencyOf(r, today).days == r.nextRenewal.value
    ensures UrgencyOf(r, today).DueThisMonth? ==> today + UrgencyOf(r, today).days == r.nextRenewal.value
    ensures UrgencyOf(r, today).DueThisWeek? <==>
      r.status == Active && r.nextRenewal.Some? && today <= r.nextRenewal.value <= today + 7
    ensures UrgencyOf(r, today).DueThisMonth? <==>
      r.status == Active && r.nextRenewal.Some? && today + 8 <= r.nextRenewal.value <= today + 30
    ensures UrgencyOf(r, today) == NoBadge <==>
      r.status != Active || r.nextRenewal.None? || r.nextRenewal.value > today + 30
  {
  }
}
