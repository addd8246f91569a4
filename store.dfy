/** The data layer and the editing actions: records, income and savings goal kept in the
    browser store under per-user keys, and the actions that change them (`saveLicense`,
    `confirmDelete`, `markAsPaid`, `saveIncome`, `saveSavingsConfig`). */
module Store {

  import opened Wrappers
  import opened Seqs
  import opened Text
  import opened Records
  import opened Savings
  import opened Stats

  /** The two tabs; each keeps its own records. */
  datatype Tab = Work | Personal

  function TabName(tab: Tab): string
  {
    match tab
    case Work => "work"
    case Personal => "personal"
  }

  /** `currentUserUid || 'default'`; `""` stands for no signed-in user. */
  function UserScope(uid: string): (scope: string)
    ensures scope != ""
    ensures uid != "" ==> scope == uid
  {
    if uid == "" then "default" else uid
  }

  /** The entries this application keeps in the browser store, per user scope. */
  datatype StoreKey = LicensesOf(tab: Tab, scope: string) | IncomeOf(scope: string) | GoalOf(scope: string)

  /** The text of each key: `storageKey(tab)`, `lh_income_<uid>` and `lh_savings_goal_<uid>`. */
  function KeyText(k: StoreKey): string
  {
    match k
    case LicensesOf(tab, scope) => "lh_licenses_" + TabName(tab) + "_" + scope
    case IncomeOf(scope) => "lh_income_" + scope
    case GoalOf(scope) => "lh_savings_goal_" + scope
  }

  /** Different entries have different key texts: the tabs never share records, users never
      share anything, and records, income and goal never overwrite each other. */
  lemma KeyTextInjective(k1: StoreKey, k2: StoreKey)
    ensures KeyText(k1) == KeyText(k2) <==> k1 == k2
  {
    var t1, t2 := KeyText(k1), KeyText(k2);
    if k1.LicensesOf? && k2.LicensesOf? && k1.tab != k2.tab {
      assert t1[12] != t2[12];
    } else if k1.LicensesOf? != k2.LicensesOf? || k1.IncomeOf? != k2.IncomeOf? {
      assert t1[3] != t2[3];
    } else if t1 == t2 {
      var n := |KeyText(k1)| - |k1.scope|;
      assert t1[n..] == k1.scope;
      assert t2[n..] == k2.scope;
    }
  }

  /** What `JSON.parse` makes of a stored text: the value written, or an exception. */
  datatype Stored<T> = Decoded(value: T) | Malformed

  /** `findIndex(l => l.id === id)`: the first position of the id, or -1. */
  function IndexOf(rs: seq<Record>, id: string): (i: int)
    ensures -1 <= i < |rs|
    ensures i >= 0 ==> rs[i].id == id && forall j :: 0 <= j < i ==> rs[j].id != id
    ensures i == -1 <==> forall j :: 0 <= j < |rs| ==> rs[j].id != id
  {
    if rs == [] then -1
    else if rs[0].id == id then 0
    else
      var k := IndexOf(rs[1..], id);
      if k == -1 then -1 else k + 1
  }

  function HasOtherId(id: string): Record -> bool
  {
    (r: Record) => r.id != id
  }

  /** `filter(l => l.id !== id)`: the records without the id, the others kept in order and each
      as often as before. */
  function WithoutId(rs: seq<Record>, id: string): (kept: seq<Record>)
    ensures forall r :: r in kept <==> r in rs && r.id != id
    ensures forall r: Record :: r.id != id ==> multiset(kept)[r] == multiset(rs)[r]
  {
    forall r ensures r in Filter(rs, HasOtherId(id)) <==> r in rs && r.id != id {
      FilterMembership(rs, HasOtherId(id), r);
    }
    forall r: Record | r.id != id ensures multiset(Filter(rs, HasOtherId(id)))[r] == multiset(rs)[r] {
      FilterMultiplicity(rs, HasOtherId(id), r);
    }
    Filter(rs, HasOtherId(id))
  }

  lemma WithoutIdIsSubsequence(rs: seq<Record>, id: string)
    ensures IsSubsequence(WithoutId(rs, id), rs)
  {
    FilterIsSubsequence(rs, HasOtherId(id));
  }

  /** Deleting an id that no record has changes nothing. */
  lemma WithoutAbsentId(rs: seq<Record>, id: string)
    requires IndexOf(rs, id) == -1
    ensures WithoutId(rs, id) == rs
  {
    FilterKeepsAll(rs, HasOtherId(id));
  }

  /** The editor's fields: `costInput` is the text typed and `cost` what `parseFloat` makes of it. */
  datatype Form = Form(
    name: string,
    vendor: string,
    category: string,
    costInput: string,
    cost: Option<real>,
    currency: string,
    billingCycle: Cycle,
    purchaseDate: Option<int>,
    nextRenewal: Option<int>,
    paymentMethod: string,
    status: Status,
    notes: string,
    isDaily: bool)

  datatype SaveError =
    | MissingName      // "El nombre es obligatorio"
    | MissingCategory  // "Selecciona una categoría"
    | InvalidCost      // "Ingresa un costo válido"

  /** The three checks of `saveLicense`, in order; the first that fails is reported. */
  function Validate(f: Form): (e: Option<SaveError>)
    ensures e.None? <==> Trim(f.name) != "" && f.category != "" && f.costInput != "" && f.cost.Some?
    ensures e == Some(MissingName) <==> Trim(f.name) == ""
    ensures e == Some(MissingCategory) <==> Trim(f.name) != "" && f.category == ""
    ensures e == Some(InvalidCost) <==> Trim(f.name) != "" && f.category != "" && (f.costInput == "" || f.cost.None?)
  {
    if Trim(f.name) == "" then Some(MissingName)
    else if f.category == "" then Some(MissingCategory)
    else if f.costInput == "" || f.cost.None? then Some(InvalidCost)
    else None
  }

  /** A name made of white space is refused like an empty one. */
  lemma BlankNameRefused(f: Form)
    requires forall k :: 0 <= k < |f.name| ==> IsSpace(f.name[k])
    ensures Validate(f) == Some(MissingName)
  {
    TrimEmptyIffBlank(f.name);
  }

  /** The record `saveLicense` writes for a valid form: name, vendor, payment method and notes
      trimmed, the rest as entered. */
  function BuildRecord(id: string, f: Form): (r: Record)
    requires Validate(f).None?
    ensures r.id == id && r.cost == f.cost && r.cost.Some?
    ensures r.name != "" && !IsSpace(r.name[0]) && !IsSpace(r.name[|r.name| - 1])
    ensures r.category == f.category && r.category != ""
    ensures r.currency == f.currency && r.billingCycle == f.billingCycle && r.status == f.status && r.isDaily == f.isDaily
    ensures r.purchaseDate == f.purchaseDate && r.nextRenewal == f.nextRenewal
    ensures r.name == Trim(f.name) && r.vendor == Trim(f.vendor)
    ensures r.paymentMethod == Trim(f.paymentMethod) && r.notes == Trim(f.notes)
  {
    Record(id, Trim(f.name), Trim(f.vendor), f.category, f.cost, f.currency, f.billingCycle,
      f.purchaseDate, f.nextRenewal, Trim(f.paymentMethod), f.status, Trim(f.notes), f.isDaily)
  }

  datatype SaveOutcome =
    | Rejected(error: SaveError)
    | Updated(index: nat, record: Record)
    | EditTargetMissing
    | Added(record: Record)

  /** How far `markAsPaid` moves a renewal date. */
  datatype Step = OneMonth | OneYear

  /** An annual record renews a year later; a monthly one, and any other, a month later. */
  function StepFor(c: Cycle): (s: Step)
    ensures s == OneYear <==> c == Annual
  {
    if c == Monthly then OneMonth
    else if c == Annual then OneYear
    else OneMonth
  }

  /** The record after being marked as paid: only the renewal date moves. */
  function Paid(r: Record, calendar: (Step, int) -> int): (p: Record)
    requires r.nextRenewal.Some?
    ensures p.nextRenewal == Some(calendar(StepFor(r.billingCycle), r.nextRenewal.value))
    ensures p.(nextRenewal := r.nextRenewal) == r
  {
    r.(nextRenewal := Some(calendar(StepFor(r.billingCycle), r.nextRenewal.value)))
  }

  datatype PaidOutcome = NotFound | NoRenewalDate | MarkedPaid(index: nat)

  /** The browser store as this application uses it, together with the page's globals: the
      signed-in user, the open tab, the record being edited and the record awaiting deletion
      (`""` for none), and the tab remembered in the session store. */
  class AppState {
    var licensesStore: map<StoreKey, Stored<seq<Record>>>
    var incomeStore: map<StoreKey, Option<real>>
    var goalStore: map<StoreKey, Stored<SavingsGoal>>
    var uid: string
    var activeTab: Tab
    var editingId: string
    var deleteTargetId: string
    var sessionTab: Option<Tab>

    /** The page on opening: `activeTab` from the session, or `work`. */
    constructor(licenses: map<StoreKey, Stored<seq<Record>>>, incomes: map<StoreKey, Option<real>>,
                goals: map<StoreKey, Stored<SavingsGoal>>, user: string, savedTab: Option<Tab>)
      ensures licensesStore == licenses && incomeStore == incomes && goalStore == goals && uid == user
      ensures activeTab == savedTab.GetOr(Work) && sessionTab == savedTab
      ensures editingId == "" && deleteTargetId == ""
    {
      licensesStore, incomeStore, goalStore, uid := licenses, incomes, goals, user;
      activeTab, sessionTab := savedTab.GetOr(Work), savedTab;
      editingId, deleteTargetId := "", "";
    }

    /** `loadLicenses(tab)`: the stored list, or the empty list when nothing is stored or the
        stored text does not parse. */
    function LoadLicenses(tab: Tab): (rs: seq<Record>)
      reads this`licensesStore, this`uid
      ensures LicensesOf(tab, UserScope(uid)) in licensesStore && licensesStore[LicensesOf(tab, UserScope(uid))].Decoded? ==>
        rs == licensesStore[LicensesOf(tab, UserScope(uid))].value
      ensures !(LicensesOf(tab, UserScope(uid)) in licensesStore && licensesStore[LicensesOf(tab, UserScope(uid))].Decoded?) ==> rs == []
    {
      var key := LicensesOf(tab, UserScope(uid));
      if key in licensesStore && licensesStore[key].Decoded? then licensesStore[key].value else []
    }

    /** `loadLicenses()`: the records of the open tab. */
    function Records(): (rs: seq<Record>)
      reads this`licensesStore, this`uid, this`activeTab
      ensures LicensesOf(activeTab, UserScope(uid)) in licensesStore && licensesStore[LicensesOf(activeTab, UserScope(uid))].Decoded? ==>
        rs == licensesStore[LicensesOf(activeTab, UserScope(uid))].value
      ensures !(LicensesOf(activeTab, UserScope(uid)) in licensesStore && licensesStore[LicensesOf(activeTab, UserScope(uid))].Decoded?) ==> rs == []
    {
      LoadLicenses(activeTab)
    }

    /** `loadIncome`: the stored income, or 0 when none is stored or it is not a number. */
    function Income(): (income: real)
      reads this`incomeStore, this`uid
      ensures IncomeOf(UserScope(uid)) !in incomeStore ==> income == 0.0
      ensures IncomeOf(UserScope(uid)) in incomeStore ==> income == incomeStore[IncomeOf(UserScope(uid))].GetOr(0.0)
    {
      var key := IncomeOf(UserScope(uid));
      if key in incomeStore && incomeStore[key].Some? then incomeStore[key].value else 0.0
    }

    /** `loadSavingsGoal`: the stored goal, or 0 within 12 months. */
    function Goal(): (goal: SavingsGoal)
      reads this`goalStore, this`uid
      ensures !(GoalOf(UserScope(uid)) in goalStore && goalStore[GoalOf(UserScope(uid))].Decoded?) ==> goal == DefaultGoal
      ensures GoalOf(UserScope(uid)) in goalStore && goalStore[GoalOf(UserScope(uid))].Decoded? ==>
        goal == goalStore[GoalOf(UserScope(uid))].value
    {
      var key := GoalOf(UserScope(uid));
      if key in goalStore && goalStore[key].Decoded? then goalStore[key].value else DefaultGoal
    }

    /** `saveLicenses(data)`: writes the open tab's list and nothing else. */
    method SaveLicenses(data: seq<Record>)
      modifies this
      ensures licensesStore == old(licensesStore)[LicensesOf(activeTab, UserScope(uid)) := Decoded(data)]
      ensures incomeStore == old(incomeStore) && goalStore == old(goalStore)
      ensures uid == old(uid) && activeTab == old(activeTab)
      ensures editingId == old(editingId) && deleteTargetId == old(deleteTargetId) && sessionTab == old(sessionTab)
      ensures Records() == data
      ensures LoadLicenses(Other(activeTab)) == old(LoadLicenses(Other(activeTab)))
    {
      licensesStore := licensesStore[LicensesOf(activeTab, UserScope(uid)) := Decoded(data)];
    }

    /** `switchTab`: opens the tab and remembers it in the session store. */
    method SwitchTab(tab: Tab)
      modifies this
      ensures activeTab == tab && sessionTab == Some(tab)
      ensures licensesStore == old(licensesStore) && incomeStore == old(incomeStore) && goalStore == old(goalStore)
      ensures uid == old(uid) && editingId == old(editingId) && deleteTargetId == old(deleteTargetId)
    {
      activeTab, sessionTab := tab, Some(tab);
    }

    /** `openModal(id)`: `""` opens the editor for a new record. */
    method OpenModal(id: string)
      modifies this
      ensures editingId == id
      ensures licensesStore == old(licensesStore) && incomeStore == old(incomeStore) && goalStore == old(goalStore)
      ensures uid == old(uid) && activeTab == old(activeTab) && deleteTargetId == old(deleteTargetId) && sessionTab == old(sessionTab)
    {
      editingId := id;
    }

    /** `saveLicense`: refuses an invalid form and changes nothing; otherwise replaces the edited
        record in place (or leaves the list as it was when that record is gone), or appends a new
        record with `freshId`, and closes the editor. */
    method SaveLicense(f: Form, freshId: string) returns (outcome: SaveOutcome)
      modifies this
      ensures Validate(f).Some? ==> unchanged(this)
      ensures Validate(f).None? ==> editingId == "" && Records() == LicensesAfterSave(old(Records()), old(editingId), freshId, f)
      ensures Validate(f).None? ==> licensesStore == old(licensesStore)[LicensesOf(activeTab, UserScope(uid)) := Decoded(Records())]
      ensures outcome == SaveResult(old(Records()), old(editingId), freshId, f)
      ensures incomeStore == old(incomeStore) && goalStore == old(goalStore)
      ensures uid == old(uid) && activeTab == old(activeTab) && deleteTargetId == old(deleteTargetId) && sessionTab == old(sessionTab)
      ensures LoadLicenses(Other(activeTab)) == old(LoadLicenses(Other(activeTab)))
    {
      var error := Validate(f);
      if error.Some? {
        assert Rejected(error.value) == SaveResult(Records(), editingId, freshId, f);
        return Rejected(error.value);
      }
      var licenses := Records();
      ghost var before := licenses;
      var record := BuildRecord(if editingId != "" then editingId else freshId, f);
      if editingId != "" {
        var idx := IndexOf(licenses, editingId);
        if idx != -1 {
          licenses := licenses[idx := record];
          outcome := Updated(idx, record);
        } else {
          outcome := EditTargetMissing;
        }
        assert licenses == LicensesAfterSave(before, editingId, freshId, f);
        assert outcome == SaveResult(before, editingId, freshId, f);
      } else {
        licenses := licenses + [record];
        outcome := Added(record);
        assert licenses == LicensesAfterSave(before, editingId, freshId, f);
        assert outcome == SaveResult(before, editingId, freshId, f);
      }
      editingId := "";
      SaveLicenses(licenses);
    }

    /** `askDelete(id)`. */
    method AskDelete(id: string)
      modifies this
      ensures deleteTargetId == id
      ensures licensesStore == old(licensesStore) && incomeStore == old(incomeStore) && goalStore == old(goalStore)
      ensures uid == old(uid) && activeTab == old(activeTab) && editingId == old(editingId) && sessionTab == old(sessionTab)
    {
      deleteTargetId := id;
    }

    /** `confirmDelete`: without a target nothing happens; otherwise every record with the
        target id is removed and the dialog closes. */
    method ConfirmDelete()
      modifies this
      ensures old(deleteTargetId) == "" ==> unchanged(this)
      ensures old(deleteTargetId) != "" ==> Records() == WithoutId(old(Records()), old(deleteTargetId)) && deleteTargetId == ""
      ensures old(deleteTargetId) != "" ==> licensesStore == old(licensesStore)[LicensesOf(activeTab, UserScope(uid)) := Decoded(Records())]
      ensures incomeStore == old(incomeStore) && goalStore == old(goalStore)
      ensures uid == old(uid) && activeTab == old(activeTab) && editingId == old(editingId) && sessionTab == old(sessionTab)
      ensures LoadLicenses(Other(activeTab)) == old(LoadLicenses(Other(activeTab)))
    {
      if deleteTargetId == "" {
        return;
      }
      SaveLicenses(WithoutId(Records(), deleteTargetId));
      deleteTargetId := "";
    }

    /** `markAsPaid(id)`: an unknown id or a record without a renewal date changes nothing;
        otherwise that record's renewal date moves one step of its cycle along `calendar` and
        every other record and field stays as it was. */
    method MarkAsPaid(id: string, calendar: (Step, int) -> int) returns (outcome: PaidOutcome)
      modifies this
      ensures outcome == NotFound <==> IndexOf(old(Records()), id) == -1
      ensures outcome == NotFound ==> unchanged(this)
      ensures outcome == NoRenewalDate ==> old(Records())[IndexOf(old(Records()), id)].nextRenewal.None? && unchanged(this)
      ensures outcome.MarkedPaid? ==>
        outcome.index == IndexOf(old(Records()), id) &&
        old(Records())[outcome.index].nextRenewal.Some? &&
        Records() == old(Records())[outcome.index := Paid(old(Records())[outcome.index], calendar)]
      ensures outcome.MarkedPaid? ==> licensesStore == old(licensesStore)[LicensesOf(activeTab, UserScope(uid)) := Decoded(Records())]
      ensures incomeStore == old(incomeStore) && goalStore == old(goalStore)
      ensures uid == old(uid) && activeTab == old(activeTab)
      ensures editingId == old(editingId) && deleteTargetId == old(deleteTargetId) && sessionTab == old(sessionTab)
    {
      var licenses := Records();
      var idx := IndexOf(licenses, id);
      if idx == -1 {
        return NotFound;
      }
      var l := licenses[idx];
      if l.nextRenewal.None? {
        return NoRenewalDate;
      }
      licenses := licenses[idx := Paid(l, calendar)];
      SaveLicenses(licenses);
      outcome := MarkedPaid(idx);
    }

    /** `saveIncome(amount)`: `amount` is what `parseFloat` makes of the text stored. */
    method SaveIncome(amount: Option<real>)
      modifies this
      ensures incomeStore == old(incomeStore)[IncomeOf(UserScope(uid)) := amount]
      ensures Income() == amount.GetOr(0.0)
      ensures licensesStore == old(licensesStore) && goalStore == old(goalStore)
      ensures uid == old(uid) && activeTab == old(activeTab)
      ensures editingId == old(editingId) && deleteTargetId == old(deleteTargetId) && sessionTab == old(sessionTab)
    {
      incomeStore := incomeStore[IncomeOf(UserScope(uid)) := amount];
    }

    /** `saveSavingsConfig`: the target and the months as `parseFloat` and `parseInt` read them;
        either one missing refuses the change. */
    method SaveSavingsConfig(target: Option<real>, months: Option<int>) returns (saved: bool)
      modifies this
      ensures saved <==> target.Some? && months.Some?
      ensures saved ==> Goal() == SavingsGoal(target.value, months.value)
      ensures saved ==> goalStore == old(goalStore)[GoalOf(UserScope(uid)) := Decoded(SavingsGoal(target.value, months.value))]
      ensures !saved ==> unchanged(this)
      ensures licensesStore == old(licensesStore) && incomeStore == old(incomeStore)
      ensures uid == old(uid) && activeTab == old(activeTab)
      ensures editingId == old(editingId) && deleteTargetId == old(deleteTargetId) && sessionTab == old(sessionTab)
    {
      if target.None? || months.None? {
        return false;
      }
      goalStore := goalStore[GoalOf(UserScope(uid)) := Decoded(SavingsGoal(target.value, months.value))];
      saved := true;
    }

    /** `updateStats` on the open tab, the stored income and the stored goal. */
    method Refresh(today: int) returns (d: Dashboard)
      ensures DashboardOf(d, Records(), Income(), Goal(), today)
    {
      d := UpdateStats(Records(), Income(), Goal(), today);
    }
  }

  function Other(tab: Tab): Tab
  {
    if tab == Work then Personal else Work
  }

  /** The list `saveLicense` writes for a valid form. */
  function LicensesAfterSave(licenses: seq<Record>, editingId: string, freshId: string, f: Form): (after: seq<Record>)
    requires Validate(f).None?
    ensures editingId == "" ==> |after| == |licenses| + 1 && after[..|licenses|] == licenses && after[|licenses|] == BuildRecord(freshId, f)
    ensures editingId != "" && IndexOf(licenses, editingId) == -1 ==> after == licenses
    ensures editingId != "" && IndexOf(licenses, editingId) != -1 ==>
      |after| == |licenses| && after[IndexOf(licenses, editingId)] == BuildRecord(editingId, f) &&
      forall j :: 0 <= j < |licenses| && j != IndexOf(licenses, editingId) ==> after[j] == licenses[j]
  {
    if editingId == "" then licenses + [BuildRecord(freshId, f)]
    else
      var idx := IndexOf(licenses, editingId);
      if idx == -1 then licenses else licenses[idx := BuildRecord(editingId, f)]
  }

  /** What `saveLicense` reports: the first failed check, the position of the replaced record,
      an edit whose record has gone, or the appended record. */
  function SaveResult(licenses: seq<Record>, editingId: string, freshId: string, f: Form): (o: SaveOutcome)
    ensures o.Rejected? <==> Validate(f).Some?
    ensures o.Rejected? ==> o.error == Validate(f).value
    ensures o.Updated? <==> Validate(f).None? && editingId != "" && IndexOf(licenses, editingId) != -1
    ensures o.Updated? ==> o.index == IndexOf(licenses, editingId) && o.record == BuildRecord(editingId, f)
    ensures o.EditTargetMissing? <==> Validate(f).None? && editingId != "" && IndexOf(licenses, editingId) == -1
    ensures o.Added? <==> Validate(f).None? && editingId == ""
    ensures o.Added? ==> o.record == BuildRecord(freshId, f)
  {
    if Validate(f).Some? then Rejected(Validate(f).value)
    else if editingId != "" then
      var idx := IndexOf(licenses, editingId);
      if idx != -1 then Updated(idx, BuildRecord(editingId, f)) else EditTargetMissing
    else Added(BuildRecord(freshId, f))
  }

  /** Saving an edit keeps the length, replaces only the first record with the edited id and
      keeps its id; saving a new record appends it and keeps the rest. */
  lemma SaveLicenseShape(licenses: seq<Record>, editingId: string, freshId: string, f: Form)
    requires Validate(f).None?
    ensures var after := LicensesAfterSave(licenses, editingId, freshId, f);
      (editingId == "" ==>
        after[..|licenses|] == licenses && |after| == |licenses| + 1 && after[|licenses|].id == freshId) &&
      (editingId != "" ==>
        |after| == |licenses| &&
        (forall j :: 0 <= j < |licenses| && j != IndexOf(licenses, editingId) ==> after[j] == licenses[j]) &&
        (forall j :: 0 <= j < |licenses| ==> after[j].id == licenses[j].id))
  {
  }

  /** Marking as paid keeps every record's id, so a second payment finds the same record. */
  lemma PaidKeepsIndex(licenses: seq<Record>, id: string, calendar: (Step, int) -> int)
    requires IndexOf(licenses, id) != -1 && licenses[IndexOf(licenses, id)].nextRenewal.Some?
    ensures var i := IndexOf(licenses, id);
      IndexOf(licenses[i := Paid(licenses[i], calendar)], id) == i
  {
    var i := IndexOf(licenses, id);
    var after := licenses[i := Paid(licenses[i], calendar)];
    assert forall j :: 0 <= j < i ==> after[j] == licenses[j];
    IndexOfFirst(after, id, i);
  }

  lemma IndexOfFirst(rs: seq<Record>, id: string, i: nat)
    requires i < |rs| && rs[i].id == id && forall j :: 0 <= j < i ==> rs[j].id != id
    ensures IndexOf(rs, id) == i
  {
  }
}
