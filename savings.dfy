/** The savings plan of `updateStats`: how much must be put aside each month to reach the goal,
    what share of income that is, whether the current balance allows it, and what to cut. */
module Savings {

  import opened Seqs
  import opened Records

  /** The stored goal: an amount to save within a number of months. */
  datatype SavingsGoal = SavingsGoal(target: real, months: int)

  /** What `loadSavingsGoal` returns when nothing usable is stored. */
  const DefaultGoal := SavingsGoal(0.0, 12)

  /** `monthlyNeeded`: the monthly amount that reaches the target in `months` months;
      zero when the horizon is not positive. */
  function MonthlyNeeded(goal: SavingsGoal): (m: real)
    ensures goal.months > 0 ==> m * goal.months as real == goal.target
    ensures goal.months <= 0 ==> m == 0.0
  {
    if goal.months > 0 then goal.target / goal.months as real else 0.0
  }

  /** `savePercent`: `monthlyNeeded` as a percentage of income; zero without a positive income. */
  function SavePercent(monthlyNeeded: real, income: real): (p: real)
    ensures income > 0.0 ==> p * income == monthlyNeeded * 100.0
    ensures income <= 0.0 ==> p == 0.0
  {
    if income > 0.0 then (monthlyNeeded / income) * 100.0 else 0.0
  }

  /** The categories a deficit suggests cutting. */
  const DiscretionaryCategories: seq<string> := ["Entretenimiento", "Otro", "Consumibles"]

  predicate IsDiscretionary(r: Record)
  {
    r.category in DiscretionaryCategories
  }

  function Names(rs: seq<Record>): (names: seq<string>)
    ensures |names| == |rs|
    ensures forall i :: 0 <= i < |rs| ==> names[i] == rs[i].name
  {
    if rs == [] then [] else [rs[0].name] + Names(rs[1..])
  }

  /** The message under the plan. */
  datatype Advice =
    | Reduce(names: seq<string>)   // "Podrías reducir: ..."
    | ReviewFixedCosts             // "Revisa tus gastos fijos."
    | Healthy                      // "Tu plan de ahorro se ve saludable."

  /** The recommendation rule: on a deficit or a savings share above 20%, name up to three
      discretionary records, in stored order, or else advise reviewing fixed costs. */
  function Advise(active: seq<Record>, canSave: bool, savePercent: real): (a: Advice)
    ensures a.Healthy? <==> canSave && savePercent <= 20.0
    ensures a.ReviewFixedCosts? <==>
      !(canSave && savePercent <= 20.0) && forall i :: 0 <= i < |active| ==> !IsDiscretionary(active[i])
    ensures a.Reduce? ==> 1 <= |a.names| <= 3
    ensures a.Reduce? ==> |a.names| == if |Filter(active, IsDiscretionary)| < 3 then |Filter(active, IsDiscretionary)| else 3
    ensures a.Reduce? ==> forall i :: 0 <= i < |a.names| ==> a.names[i] == Filter(active, IsDiscretionary)[i].name
    ensures a.Reduce? ==> forall i :: 0 <= i < |a.names| ==>
      exists r :: r in active && IsDiscretionary(r) && r.name == a.names[i]
  {
    var candidates := Filter(active, IsDiscretionary);
    FilterEmpty(active, IsDiscretionary);
    FilterElementsFrom(active, IsDiscretionary);
    if !canSave || savePercent > 20.0 then
      if |candidates| > 0 then
        var n := if |candidates| < 3 then |candidates| else 3;
        assert forall i :: 0 <= i < n ==> candidates[i] in active && IsDiscretionary(candidates[i]);
        Reduce(Names(candidates)[..n])
      else ReviewFixedCosts
    else Healthy
  }

  datatype SavingsPlan = SavingsPlan(monthlyNeeded: real, savePercent: real, canSave: bool, advice: Advice)

  /** The plan for a goal, the income, the current balance and the active records. */
  function Plan(goal: SavingsGoal, income: real, balance: real, active: seq<Record>): (p: SavingsPlan)
    ensures p.canSave <==> balance >= p.monthlyNeeded
    ensures p.monthlyNeeded == MonthlyNeeded(goal) && p.savePercent == SavePercent(p.monthlyNeeded, income)
    ensures p.advice == Advise(active, p.canSave, p.savePercent)
  {
    var needed := MonthlyNeeded(goal);
    var percent := SavePercent(needed, income);
    var canSave := balance >= needed;
    SavingsPlan(needed, percent, canSave, Advise(active, canSave, percent))
  }

  /** The suggestion only ever names active records of the three discretionary categories. */
  lemma SuggestionsAreActiveDiscretionary(licenses: seq<Record>, goal: SavingsGoal, income: real, balance: real)
    ensures var a := Plan(goal, income, balance, ActiveRecords(licenses)).advice;
      a.Reduce? ==> |a.names| <= 3 && forall i :: 0 <= i < |a.names| ==>
        exists r :: r in licenses && r.status == Active && r.category in DiscretionaryCategories && r.name == a.names[i]
  {
    var active := ActiveRecords(licenses);
    var a := Plan(goal, income, balance, active).advice;
    if a.Reduce? {
      forall i | 0 <= i < |a.names|
        ensures exists r :: r in licenses && r.status == Active && r.category in DiscretionaryCategories && r.name == a.names[i]
      {
        var r :| r in active && IsDiscretionary(r) && r.name == a.names[i];
        FilterMembership(licenses, IsActive, r);
      }
    }
  }

  /** The worked example: saving 1200 in 12 months on an income of 1000 with 700 left over. */
  lemma WorkedExample()
    ensures var p := Plan(SavingsGoal(1200.0, 12), 1000.0, 700.0, []);
      p.monthlyNeeded == 100.0 && p.savePercent == 10.0 && p.canSave && p.advice == Healthy
  {
  }
}
