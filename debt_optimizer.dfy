/**
 * The Debt Optimizer view: the user lists debts (name, balance, APR, minimum
 * payment), sets an extra monthly payment and a psychological preference,
 * and asks the remote service for a payoff roadmap. The service answers with
 * two schedules, snowball (smallest balance first, "quick wins") and
 * avalanche (highest rate first, "save money"); the view shows the one that
 * matches the current preference.
 *
 * The view's state is the value `Optimizer`; each handler is a function on
 * it, and `DebtOptimizerView` is the component, whose methods update its
 * fields exactly as those functions say.
 */
module DebtOptimizer {
  import opened Wrappers
  import opened Strings
  import opened Types

  /** The two strategy buttons: `'quick-win'` (snowball) and `'save-money'` (avalanche). */
  datatype Preference = QuickWin | SaveMoney

  /** The four text inputs of the "add a debt" form, as typed. */
  datatype DebtForm = DebtForm(name: string, balance: string, rate: string, minPayment: string)

  const EmptyForm: DebtForm := DebtForm("", "", "", "")

  /** Everything the view keeps in state. */
  datatype Optimizer = Optimizer(
    debts: seq<DebtItem>,
    extraPayment: real,
    preference: Preference,
    result: Option<DebtAnalysisResult>,
    isLoading: bool,
    form: DebtForm)

  /** A freshly mounted view: no debts, $100 extra per month, avalanche preferred. */
  const Initial: Optimizer := Optimizer([], 100.0, SaveMoney, None, false, EmptyForm)

  // ---------------------------------------------------------------------
  // The list of debts
  // ---------------------------------------------------------------------

  /** `addDebt` only acts when none of the four inputs is empty (whitespace counts as content). */
  predicate FormComplete(f: DebtForm) {
    f.name != "" && f.balance != "" && f.rate != "" && f.minPayment != ""
  }

  /**
   * The debt built from the form at clock reading `now` (milliseconds):
   * the reading in decimal is its id, and `parse` stands for `parseFloat`.
   */
  function NewDebt(f: DebtForm, now: nat, parse: string -> real): DebtItem {
    DebtItem(DecimalString(now), f.name, parse(f.balance), parse(f.rate), parse(f.minPayment))
  }

  /** `addDebt`: a complete form appends one debt and clears the form; otherwise nothing happens. */
  function DebtAdded(o: Optimizer, now: nat, parse: string -> real): Optimizer {
    if FormComplete(o.form) then
      o.(debts := o.debts + [NewDebt(o.form, now, parse)], form := EmptyForm)
    else o
  }

  /** The debts whose id differs from `id`, in their original order. */
  function Without(debts: seq<DebtItem>, id: string): seq<DebtItem> {
    if debts == [] then []
    else (if debts[0].id == id then [] else [debts[0]]) + Without(debts[1..], id)
  }

  /** `removeDebt`: every debt carrying `id` leaves the list. */
  function DebtRemoved(o: Optimizer, id: string): Optimizer {
    o.(debts := Without(o.debts, id))
  }

  /** No debt in the list carries `id`. */
  predicate IdUnused(debts: seq<DebtItem>, id: string) {
    forall k :: 0 <= k < |debts| ==> debts[k].id != id
  }

  /** A debt stays in the list exactly when it was there and carries another id. */
  lemma {:induction false} WithoutMembers(debts: seq<DebtItem>, id: string, d: DebtItem)
    ensures d in Without(debts, id) <==> d in debts && d.id != id
    decreases |debts|
  {
    if debts != [] {
      WithoutMembers(debts[1..], id, d);
      assert debts == [debts[0]] + debts[1..];
    }
  }

  /** Removing an id nobody carries changes nothing. */
  lemma {:induction false} WithoutUnused(debts: seq<DebtItem>, id: string)
    requires IdUnused(debts, id)
    ensures Without(debts, id) == debts
    decreases |debts|
  {
    if debts != [] {
      WithoutUnused(debts[1..], id);
      assert debts == [debts[0]] + debts[1..];
    }
  }

  /** Removal works list piece by list piece: the debts that stay keep their order. */
  lemma {:induction false} WithoutAppend(a: seq<DebtItem>, b: seq<DebtItem>, id: string)
    ensures Without(a + b, id) == Without(a, id) + Without(b, id)
    decreases |a|
  {
    if a == [] {
      assert a + b == b;
    } else {
      assert (a + b)[1..] == a[1..] + b;
      WithoutAppend(a[1..], b, id);
    }
  }

  /** After a removal no debt carries the id, so removing it again changes nothing. */
  lemma {:induction false} WithoutIdempotent(debts: seq<DebtItem>, id: string)
    ensures IdUnused(Without(debts, id), id)
    ensures Without(Without(debts, id), id) == Without(debts, id)
  {
    forall k | 0 <= k < |Without(debts, id)|
      ensures Without(debts, id)[k].id != id
    {
      WithoutMembers(debts, id, Without(debts, id)[k]);
    }
    WithoutUnused(Without(debts, id), id);
  }

  /**
   * Adding a debt at a clock reading no listed debt was stamped with, then
   * clicking its remove button, gives back the original list.
   */
  lemma AddThenRemove(o: Optimizer, now: nat, parse: string -> real)
    requires FormComplete(o.form) && IdUnused(o.debts, DecimalString(now))
    ensures DebtRemoved(DebtAdded(o, now, parse), DecimalString(now)).debts == o.debts
  {
    var d := NewDebt(o.form, now, parse);
    WithoutAppend(o.debts, [d], d.id);
    WithoutUnused(o.debts, d.id);
    assert Without([d], d.id) == [];
  }

  /**
   * Debts stamped at distinct clock readings have distinct ids, so removing
   * one of them keeps the other.
   */
  lemma RemoveKeepsOtherDebt(o: Optimizer, now: nat, later: nat, d: DebtItem)
    requires now != later && d in o.debts && d.id == DecimalString(later)
    ensures d in DebtRemoved(o, DecimalString(now)).debts
  {
    if DecimalString(now) == DecimalString(later) {
      DecimalStringInjective(now, later);
    }
    WithoutMembers(o.debts, DecimalString(now), d);
  }

  /**
   * An incomplete form leaves the whole view alone. A complete one appends
   * exactly one debt at the end, stamped with the clock reading and carrying
   * the form's name and parsed amounts, keeps the earlier debts in order,
   * clears the form and changes nothing else.
   */
  lemma AddDebtEffect(o: Optimizer, now: nat, parse: string -> real)
    ensures !FormComplete(o.form) ==> DebtAdded(o, now, parse) == o
    ensures FormComplete(o.form) ==>
      var after := DebtAdded(o, now, parse);
      && after.debts[..|o.debts|] == o.debts && |after.debts| == |o.debts| + 1
      && after.debts[|o.debts|] == DebtItem(DecimalString(now), o.form.name,
           parse(o.form.balance), parse(o.form.rate), parse(o.form.minPayment))
      && after.form == EmptyForm
      && after.extraPayment == o.extraPayment && after.preference == o.preference
      && after.result == o.result && after.isLoading == o.isLoading
  {
  }

  // ---------------------------------------------------------------------
  // The roadmap request
  // ---------------------------------------------------------------------

  /** The roadmap may be requested: some debt is listed and no request is pending (handler guard and button). */
  predicate CalculateEnabled(o: Optimizer) {
    |o.debts| > 0 && !o.isLoading
  }

  /** What is sent to the service: the debts, the extra payment and the preference at the click. */
  datatype DebtRequest = DebtRequest(debts: seq<DebtItem>, extraPayment: real, preference: Preference)

  function CalculateRequest(o: Optimizer): Option<DebtRequest> {
    if CalculateEnabled(o) then Some(DebtRequest(o.debts, o.extraPayment, o.preference)) else None
  }

  function CalculateStarted(o: Optimizer): Optimizer {
    if CalculateEnabled(o) then o.(isLoading := true) else o
  }

  /** A result replaces the shown one; an error (an alert) keeps it; loading ends either way. */
  function CalculateCompleted(o: Optimizer, outcome: Outcome<DebtAnalysisResult>): Optimizer {
    match outcome
    case Success(r) => o.(result := Some(r), isLoading := false)
    case Failure => o.(isLoading := false)
  }

  /** A request goes out only for a non-empty list, never while another is pending. */
  lemma RequestNeedsDebts(o: Optimizer)
    ensures CalculateRequest(o).Some? <==> |o.debts| > 0 && !o.isLoading
    ensures CalculateRequest(o).Some? ==> CalculateRequest(o).value.debts == o.debts
    ensures o.isLoading ==> CalculateStarted(o) == o
  {
  }

  /** A failed request leaves the view as it was before the click. */
  lemma FailedCalculateRestores(o: Optimizer)
    requires CalculateEnabled(o)
    ensures CalculateCompleted(CalculateStarted(o), Failure) == o
  {
  }

  /**
   * A successful request shows the new roadmap in place of any earlier one
   * and leaves the debts, the extra payment, the preference and the form
   * as they were at the click.
   */
  lemma SuccessfulCalculateShowsRoadmap(o: Optimizer, r: DebtAnalysisResult)
    requires CalculateEnabled(o)
    ensures CalculateCompleted(CalculateStarted(o), Success(r)) == o.(result := Some(r))
  {
  }

  // ---------------------------------------------------------------------
  // The roadmap shown
  // ---------------------------------------------------------------------

  /** The schedule matching a preference: avalanche to save money, snowball for quick wins. */
  function ActivePlan(r: DebtAnalysisResult, p: Preference): DebtPlan {
    if p == SaveMoney then r.avalanche else r.snowball
  }

  /** The four figures of the roadmap panel. */
  datatype Roadmap = Roadmap(chart: seq<MonthData>, payoffOrder: seq<string>, monthsToPayoff: real, totalInterest: real)

  /** The roadmap panel as the view fills it, choosing the schedule separately for each figure. */
  function ShownRoadmap(r: DebtAnalysisResult, p: Preference): Roadmap {
    Roadmap(
      if p == SaveMoney then r.avalanche.monthlyData else r.snowball.monthlyData,
      if p == SaveMoney then r.avalanche.payoffOrder else r.snowball.payoffOrder,
      if p == SaveMoney then r.avalanche.monthsToPayoff else r.snowball.monthsToPayoff,
      if p == SaveMoney then r.avalanche.totalInterest else r.snowball.totalInterest)
  }

  /**
   * The four separately chosen figures always come from one and the same
   * schedule, the one the preference names.
   */
  lemma ShownRoadmapIsOnePlan(r: DebtAnalysisResult, p: Preference)
    ensures var plan := ActivePlan(r, p);
      ShownRoadmap(r, p) == Roadmap(plan.monthlyData, plan.payoffOrder, plan.monthsToPayoff, plan.totalInterest)
    ensures ActivePlan(r, p) == (match p case SaveMoney => r.avalanche case QuickWin => r.snowball)
  {
  }

  /** A strategy button: only the preference changes; the shown result is not recomputed. */
  function PreferenceChosen(o: Optimizer, p: Preference): Optimizer {
    o.(preference := p)
  }

  /**
   * The shown schedule follows the preference of the moment, not the one
   * sent with the request: choosing a preference after a result arrived
   * shows that preference's whole schedule without asking the service
   * again, and choosing the old preference back restores the view.
   */
  lemma PreferenceSwitchesShownPlan(o: Optimizer, p: Preference)
    requires o.result.Some?
    ensures var after := PreferenceChosen(o, p);
      var plan := ActivePlan(o.result.value, p);
      && after.result == o.result && !after.isLoading == !o.isLoading
      && ShownRoadmap(after.result.value, after.preference)
         == Roadmap(plan.monthlyData, plan.payoffOrder, plan.monthsToPayoff, plan.totalInterest)
      && PreferenceChosen(after, o.preference) == o
  {
    ShownRoadmapIsOnePlan(o.result.value, p);
  }

  /** The method named in the savings panel. */
  function SavingsMethod(interestSaved: real): string {
    if interestSaved > 0.0 then "Avalanche" else "Current"
  }

  /** The panel credits the avalanche method exactly when it saves a positive amount. */
  lemma SavingsMethodNamesAvalanche(interestSaved: real)
    ensures SavingsMethod(interestSaved) == "Avalanche" <==> interestSaved > 0.0
    ensures SavingsMethod(interestSaved) == "Current" <==> interestSaved <= 0.0
  {
  }

  // ---------------------------------------------------------------------
  // The component
  // ---------------------------------------------------------------------

  class DebtOptimizerView {
    var debts: seq<DebtItem>
    var extraPayment: real
    var preference: Preference
    var result: Option<DebtAnalysisResult>
    var isLoading: bool
    var newName: string
    var newBalance: string
    var newRate: string
    var newMin: string

    /** The component's state as a value. */
    function Model(): Optimizer
      reads this
    {
      Optimizer(debts, extraPayment, preference, result, isLoading, DebtForm(newName, newBalance, newRate, newMin))
    }

    constructor ()
      ensures Model() == Initial
    {
      debts := [];
      extraPayment := 100.0;
      preference := SaveMoney;
      result := None;
      isLoading := false;
      newName, newBalance, newRate, newMin := "", "", "", "";
    }

    /** Typing in one of the four form inputs (none is disabled while loading). */
    method EditForm(form: DebtForm)
      modifies this
      ensures Model() == old(Model()).(form := form)
    {
      newName, newBalance, newRate, newMin := form.name, form.balance, form.rate, form.minPayment;
    }

    /** The "+" button, at clock reading `now`. */
    method AddDebt(now: nat, parse: string -> real)
      modifies this
      ensures Model() == DebtAdded(old(Model()), now, parse)
    {
      if newName == "" || newBalance == "" || newRate == "" || newMin == "" {
        return;
      }
      var debt := DebtItem(DecimalString(now), newName, parse(newBalance), parse(newRate), parse(newMin));
      debts := debts + [debt];
      newName, newBalance, newRate, newMin := "", "", "", "";
    }

    /** The remove button of the debt carrying `id`: a filter over the list, as a loop. */
    method RemoveDebt(id: string)
      modifies this`debts
      ensures Model() == DebtRemoved(old(Model()), id)
    {
      var all := debts;
      var kept: seq<DebtItem> := [];
      var i := 0;
      while i < |all|
        invariant 0 <= i <= |all|
        invariant kept == Without(all[..i], id)
      {
        WithoutAppend(all[..i], [all[i]], id);
        assert all[..i + 1] == all[..i] + [all[i]];
        assert [all[i]][1..] == [];
        if all[i].id != id {
          kept := kept + [all[i]];
        }
        i := i + 1;
      }
      assert all[..i] == all;
      debts := kept;
    }

    /** The extra-payment input (its value passed through `parseFloat`). */
    method SetExtraPayment(amount: real)
      modifies this
      ensures Model() == old(Model()).(extraPayment := amount)
    {
      extraPayment := amount;
    }

    /** One of the two strategy buttons. */
    method SetPreference(p: Preference)
      modifies this
      ensures Model() == PreferenceChosen(old(Model()), p)
    {
      preference := p;
    }

    /** `handleCalculate` up to the awaited call: returns what is sent, if anything. */
    method BeginCalculate() returns (request: Option<DebtRequest>)
      modifies this
      ensures request == CalculateRequest(old(Model()))
      ensures Model() == CalculateStarted(old(Model()))
    {
      if |debts| == 0 || isLoading {
        return None;
      }
      isLoading := true;
      request := Some(DebtRequest(debts, extraPayment, preference));
    }

    /** `handleCalculate` after the awaited call settles with `outcome`. */
    method CompleteCalculate(outcome: Outcome<DebtAnalysisResult>)
      requires isLoading
      modifies this
      ensures Model() == CalculateCompleted(old(Model()), outcome)
    {
      if outcome.Success? {
        result := Some(outcome.value);
      }
      isLoading := false;
    }

    /** The roadmap panel, present once a result has arrived. */
    method ShownPlan() returns (shown: Option<Roadmap>)
      ensures shown == if result.None? then None else Some(ShownRoadmap(result.value, preference))
    {
      if result.None? {
        return None;
      }
      var r := result.value;
      shown := Some(ShownRoadmap(r, preference));
    }
  }
}
