/** The membership cost calculator: a static catalogue of plans and add-ons, the total and
    the "savings" figure shown for a selection, the add-on toggle, and the 20-step interval
    that moves the displayed total to the new target. Prices are whole rupees. */
module Membership {
  import opened Common

  datatype Plan = Plan(id: string, name: string, monthlyPrice: int, yearlyPrice: int,
                       features: seq<string>, popular: bool)

  datatype AddOn = AddOn(id: string, name: string, price: int, description: string)

  const Plans: seq<Plan> := [
    Plan("basic", "Basic", 1499, 14990,
         ["Gym access (6 AM - 10 PM)", "Basic equipment", "Locker room access", "Free fitness assessment"], false),
    Plan("premium", "Premium", 2999, 29990,
         ["24/7 gym access", "All equipment", "Group classes included", "Sauna & steam room", "1 PT session/month"], true),
    Plan("elite", "Elite", 4999, 49990,
         ["Everything in Premium", "Unlimited PT sessions", "Personalized meal plans", "Priority booking", "Guest passes (4/month)"], false)
  ]

  const AddOns: seq<AddOn> := [
    AddOn("pt-pack", "PT Session Pack (4)", 3999, "4 personal training sessions"),
    AddOn("nutrition", "Nutrition Coaching", 1499, "Monthly diet consultation"),
    AddOn("locker", "Private Locker", 499, "Dedicated locker with key")
  ]

  /** Number of interval callbacks that move the displayed total, one every 500 / 20 = 25 ms. */
  const Steps: nat := 20

  /** `plans.find(p => p.id === id)`: the first plan with that id, or nothing. */
  function FindPlanIn(ps: seq<Plan>, id: string): (r: Option<Plan>)
    ensures r.Some? ==> r.value in ps && r.value.id == id
    ensures r.None? <==> forall p :: p in ps ==> p.id != id
  {
    if ps == [] then None
    else if ps[0].id == id then Some(ps[0])
    else FindPlanIn(ps[1..], id)
  }

  /** `addOns.find(a => a.id === id)`. */
  function FindAddOnIn(as_: seq<AddOn>, id: string): (r: Option<AddOn>)
    ensures r.Some? ==> r.value in as_ && r.value.id == id
    ensures r.None? <==> forall a :: a in as_ ==> a.id != id
  {
    if as_ == [] then None
    else if as_[0].id == id then Some(as_[0])
    else FindAddOnIn(as_[1..], id)
  }

  function FindPlan(id: string): Option<Plan> { FindPlanIn(Plans, id) }

  predicate KnownAddOn(id: string) { FindAddOnIn(AddOns, id).Some? }

  /** `addOn?.price || 0`: the price of a catalogue add-on, 0 for an unknown id. */
  function AddOnPrice(id: string): (p: int)
    ensures p >= 0
    ensures !KnownAddOn(id) ==> p == 0
  {
    match FindAddOnIn(AddOns, id)
    case Some(a) => a.price
    case None => 0
  }

  /** The `reduce` over the selected ids: their prices added up from left to right. */
  function AddOnsSum(ids: seq<string>): (s: int)
  {
    if ids == [] then 0 else AddOnsSum(ids[..|ids| - 1]) + AddOnPrice(ids[|ids| - 1])
  }

  /** The `reduce` of the savings figure: a notional 10% of a year of each add-on. */
  function AddOnsSavings(ids: seq<string>): real
  {
    if ids == [] then 0.0
    else AddOnsSavings(ids[..|ids| - 1]) + (AddOnPrice(ids[|ids| - 1]) * 12) as real * 0.1
  }

  /** `calculateTotal`. */
  function Total(planId: string, isYearly: bool, ids: seq<string>): int
  {
    match FindPlan(planId)
    case None => 0
    case Some(plan) =>
      var planPrice := if isYearly then plan.yearlyPrice else plan.monthlyPrice;
      var addOnsTotal := AddOnsSum(ids);
      planPrice + (if isYearly then addOnsTotal * 12 else addOnsTotal)
  }

  /** `calculateSavings`. */
  function Savings(planId: string, isYearly: bool, ids: seq<string>): real
  {
    match FindPlan(planId)
    case None => 0.0
    case Some(plan) =>
      if !isYearly then 0.0
      else (plan.monthlyPrice * 12) as real - plan.yearlyPrice as real + AddOnsSavings(ids)
  }

  /** The savings badge is shown when the figure is positive; it reads `Math.round(savings)`. */
  predicate SavingsBadgeShown(planId: string, isYearly: bool, ids: seq<string>)
  {
    Savings(planId, isYearly, ids) > 0.0
  }

  // ---------------------------------------------------------------- sums

  lemma {:induction false} AddOnsSumAppend(a: seq<string>, b: seq<string>)
    ensures AddOnsSum(a + b) == AddOnsSum(a) + AddOnsSum(b)
    decreases |b|
  {
    if b == [] {
      assert a + b == a;
    } else {
      var b' := b[..|b| - 1];
      assert (a + b)[..|a + b| - 1] == a + b';
      AddOnsSumAppend(a, b');
    }
  }

  lemma {:induction false} AddOnsSumNonNegative(ids: seq<string>)
    ensures AddOnsSum(ids) >= 0
    decreases |ids|
  {
    if ids != [] {
      AddOnsSumNonNegative(ids[..|ids| - 1]);
    }
  }

  /** An unknown add-on id contributes nothing to the total, wherever it stands in the list. */
  lemma UnknownAddOnIgnoredInTotal(a: seq<string>, u: string, b: seq<string>)
    requires !KnownAddOn(u)
    ensures AddOnsSum(a + [u] + b) == AddOnsSum(a + b)
  {
    AddOnsSumAppend(a + [u], b);
    AddOnsSumAppend(a, [u]);
    AddOnsSumAppend(a, b);
    assert [u][..0] == [];
  }

  /** The savings reduce is exactly a tenth of twelve times the add-on sum. */
  lemma {:induction false} AddOnsSavingsIsTenthOfYear(ids: seq<string>)
    ensures AddOnsSavings(ids) == (12 * AddOnsSum(ids)) as real / 10.0
    decreases |ids|
  {
    if ids != [] {
      AddOnsSavingsIsTenthOfYear(ids[..|ids| - 1]);
    }
  }

  /** An unknown add-on id contributes nothing to the savings figure either. */
  lemma UnknownAddOnIgnoredInSavings(a: seq<string>, u: string, b: seq<string>)
    requires !KnownAddOn(u)
    ensures AddOnsSavings(a + [u] + b) == AddOnsSavings(a + b)
  {
    UnknownAddOnIgnoredInTotal(a, u, b);
    AddOnsSavingsIsTenthOfYear(a + [u] + b);
    AddOnsSavingsIsTenthOfYear(a + b);
  }

  // ---------------------------------------------------------------- total and savings

  /** An unknown plan id is "no selection": total 0 and savings 0. */
  lemma UnknownPlanGivesZero(planId: string, isYearly: bool, ids: seq<string>)
    requires forall p :: p in Plans ==> p.id != planId
    ensures Total(planId, isYearly, ids) == 0
    ensures Savings(planId, isYearly, ids) == 0.0
  {
  }

  /** Monthly: the plan's monthly price plus the selected add-ons' prices. */
  lemma MonthlyTotal(plan: Plan, ids: seq<string>)
    requires plan in Plans
    ensures Total(plan.id, false, ids) == plan.monthlyPrice + AddOnsSum(ids)
    ensures Savings(plan.id, false, ids) == 0.0
  {
    PlanIdsUnique();
  }

  /** Yearly: the plan's yearly price plus twelve months of every selected add-on, and
      savings of `monthly*12 - yearly` plus a tenth of a year of add-ons. */
  lemma YearlyTotal(plan: Plan, ids: seq<string>)
    requires plan in Plans
    ensures Total(plan.id, true, ids) == plan.yearlyPrice + 12 * AddOnsSum(ids)
    ensures Savings(plan.id, true, ids)
            == (plan.monthlyPrice * 12 - plan.yearlyPrice) as real + (12 * AddOnsSum(ids)) as real / 10.0
  {
    PlanIdsUnique();
    AddOnsSavingsIsTenthOfYear(ids);
  }

  lemma PlanIdsUnique()
    ensures forall i, j :: 0 <= i < j < |Plans| ==> Plans[i].id != Plans[j].id
  {
  }

  /** In the catalogue every yearly price is below twelve monthly prices. */
  lemma CataloguePlansDiscounted()
    ensures forall p :: p in Plans ==> 0 < p.yearlyPrice < p.monthlyPrice * 12
  {
  }

  /** So yearly billing always shows a positive savings badge for a catalogue plan. */
  lemma YearlySavingsPositive(plan: Plan, ids: seq<string>)
    requires plan in Plans
    ensures SavingsBadgeShown(plan.id, true, ids)
    ensures !SavingsBadgeShown(plan.id, false, ids)
  {
    YearlyTotal(plan, ids);
    MonthlyTotal(plan, ids);
    CataloguePlansDiscounted();
    AddOnsSumNonNegative(ids);
  }

  /** Premium, yearly, with the PT pack: 29990 + 12 * 3999 = 77978; savings 5998 + 4798.8,
      shown rounded as 10797. */
  lemma PremiumYearlyWithPtPack()
    ensures Total("premium", true, ["pt-pack"]) == 77978
    ensures Savings("premium", true, ["pt-pack"]) == 10796.8
    ensures JsRound(Savings("premium", true, ["pt-pack"])) == 10797
  {
    var ids := ["pt-pack"];
    assert ids[..0] == [];
    assert AddOnPrice("pt-pack") == 3999;
    assert AddOnsSum(ids) == 3999;
    YearlyTotal(Plans[1], ids);
  }

  // ---------------------------------------------------------------- add-on toggle

  /** `prev.filter(id => id !== addOnId)`. */
  function Without(ids: seq<string>, x: string): (r: seq<string>)
    ensures x !in r
    ensures forall y :: y != x ==> (y in r <==> y in ids)
    ensures forall y :: y != x ==> multiset(r)[y] == multiset(ids)[y]
  {
    if ids == [] then []
    else
      assert ids == [ids[0]] + ids[1..];
      if ids[0] == x then Without(ids[1..], x)
      else [ids[0]] + Without(ids[1..], x)
  }

  /** `toggleAddOn`: a present id is removed entirely, an absent one is appended. */
  function Toggled(ids: seq<string>, x: string): seq<string>
  {
    if x in ids then Without(ids, x) else ids + [x]
  }

  predicate NoDuplicates(ids: seq<string>)
  {
    forall i, j :: 0 <= i < j < |ids| ==> ids[i] != ids[j]
  }

  /** Toggling flips the membership of the toggled id and of no other id. */
  lemma ToggleFlips(ids: seq<string>, x: string)
    ensures x in Toggled(ids, x) <==> x !in ids
    ensures forall y :: y != x ==> (y in Toggled(ids, x) <==> y in ids)
  {
  }

  /** Toggling the same id twice restores which ids are selected. */
  lemma ToggleTwiceRestoresMembership(ids: seq<string>, x: string)
    ensures forall y :: y in Toggled(Toggled(ids, x), x) <==> y in ids
  {
    ToggleFlips(ids, x);
    ToggleFlips(Toggled(ids, x), x);
  }

  lemma {:induction false} WithoutKeepsNoDuplicates(ids: seq<string>, x: string)
    requires NoDuplicates(ids)
    ensures NoDuplicates(Without(ids, x))
    decreases |ids|
  {
    if ids != [] {
      assert NoDuplicates(ids[1..]) by {
        forall i, j | 0 <= i < j < |ids[1..]| ensures ids[1..][i] != ids[1..][j] {
          assert ids[1..][i] == ids[i + 1] && ids[1..][j] == ids[j + 1];
        }
      }
      WithoutKeepsNoDuplicates(ids[1..], x);
      if ids[0] != x {
        assert ids[0] !in ids[1..];
        assert ids[0] !in Without(ids[1..], x);
      }
    }
  }

  /** A duplicate-free selection stays duplicate-free under toggling. */
  lemma ToggleKeepsNoDuplicates(ids: seq<string>, x: string)
    requires NoDuplicates(ids)
    ensures NoDuplicates(Toggled(ids, x))
  {
    if x in ids {
      WithoutKeepsNoDuplicates(ids, x);
    }
  }

  lemma NoDuplicatesCountAtMostOne(ids: seq<string>, y: string)
    requires NoDuplicates(ids)
    ensures multiset(ids)[y] <= 1
    decreases |ids|
  {
    if ids != [] {
      assert ids == [ids[0]] + ids[1..];
      assert NoDuplicates(ids[1..]) by {
        forall i, j | 0 <= i < j < |ids[1..]| ensures ids[1..][i] != ids[1..][j] {
          assert ids[1..][i] == ids[i + 1] && ids[1..][j] == ids[j + 1];
        }
      }
      NoDuplicatesCountAtMostOne(ids[1..], y);
      if ids[0] == y {
        assert y !in ids[1..];
      }
    }
  }

  /** On a duplicate-free selection, toggling twice gives back the same ids with the same
      multiplicities (only their order can change). */
  lemma ToggleTwiceRestoresSelection(ids: seq<string>, x: string)
    requires NoDuplicates(ids)
    ensures multiset(Toggled(Toggled(ids, x), x)) == multiset(ids)
  {
    var t := Toggled(Toggled(ids, x), x);
    if x in ids {
      var w := Without(ids, x);
      assert t == w + [x];
      NoDuplicatesCountAtMostOne(ids, x);
      assert multiset(ids)[x] == 1;
      forall y ensures multiset(t)[y] == multiset(ids)[y] {
      }
    } else {
      assert x in ids + [x];
      forall y ensures multiset(t)[y] == multiset(ids)[y] {
        assert multiset(ids)[x] == 0;
      }
    }
  }

  // ---------------------------------------------------------------- displayed total

  /** `(targetTotal - displayTotal) / steps`, fixed when the interval starts. */
  function Increment(start: int, target: int): real
  {
    (target - start) as real / Steps as real
  }

  /** The displayed total after `k` interval callbacks of a run from `start` to `target`:
      `Math.round(prev + increment)` at each step before the last; the target itself from
      step 20 on, when the interval clears itself. */
  function DisplayAfter(start: int, target: int, k: nat): int
  {
    if k == 0 then start
    else if k >= Steps then target
    else JsRound(DisplayAfter(start, target, k - 1) as real + Increment(start, target))
  }

  /** One interval callback: the rounded sum before step 20, the target from then on. */
  lemma DisplayStep(start: int, target: int, k: nat)
    requires k >= 1
    ensures DisplayAfter(start, target, k) ==
      if k >= Steps then target else JsRound(DisplayAfter(start, target, k - 1) as real + Increment(start, target))
  {
  }

  /** The straight line the interval follows: start plus k increments. */
  function Linear(start: int, target: int, k: nat): real
  {
    if k == 0 then start as real else Linear(start, target, k - 1) + Increment(start, target)
  }

  /** Whatever the intermediate rounding gives, the display is exactly the target from step 20 on. */
  lemma DisplaySettlesOnTarget(start: int, target: int, k: nat)
    requires k >= Steps
    ensures DisplayAfter(start, target, k) == target
  {
  }

  /** Before the last step the display drifts from the straight line by at most half a rupee
      per step, because each step rounds once. */
  lemma {:induction false} DisplayDriftBounded(start: int, target: int, k: nat)
    requires k < Steps
    ensures -(k as real) / 2.0 <= DisplayAfter(start, target, k) as real - Linear(start, target, k) <= k as real / 2.0
  {
    if k > 0 {
      DisplayDriftBounded(start, target, k - 1);
    }
  }

  /** When the total does not change, the display does not flicker: every step shows it. */
  lemma {:induction false} UnchangedTotalShowsSteadily(v: int, k: nat)
    ensures DisplayAfter(v, v, k) == v
  {
    if 0 < k < Steps {
      UnchangedTotalShowsSteadily(v, k - 1);
      assert Increment(v, v) == 0.0;
    }
  }

  /** The selection state of the widget and its animated display total. */
  class Calculator {
    var selectedPlan: string
    var isYearly: bool
    var selectedAddOns: seq<string>
    var displayTotal: int

    /** The total for the current selection. */
    function Target(): int
      reads this`selectedPlan, this`isYearly, this`selectedAddOns
    {
      Total(selectedPlan, isYearly, selectedAddOns)
    }

    constructor ()
      ensures selectedPlan == "premium" && !isYearly && selectedAddOns == [] && displayTotal == 0
    {
      selectedPlan := "premium";
      isYearly := false;
      selectedAddOns := [];
      displayTotal := 0;
    }

    method SelectPlan(id: string)
      modifies this
      ensures selectedPlan == id
      ensures isYearly == old(isYearly) && selectedAddOns == old(selectedAddOns)
      ensures displayTotal == old(displayTotal)
    {
      selectedPlan := id;
    }

    method SetYearly(yearly: bool)
      modifies this
      ensures isYearly == yearly
      ensures selectedPlan == old(selectedPlan) && selectedAddOns == old(selectedAddOns)
      ensures displayTotal == old(displayTotal)
    {
      isYearly := yearly;
    }

    method ToggleAddOn(id: string)
      modifies this
      ensures selectedAddOns == Toggled(old(selectedAddOns), id)
      ensures selectedPlan == old(selectedPlan) && isYearly == old(isYearly)
      ensures displayTotal == old(displayTotal)
    {
      if id in selectedAddOns {
        selectedAddOns := Without(selectedAddOns, id);
      } else {
        selectedAddOns := selectedAddOns + [id];
      }
    }

    /** The interval started after a selection change. It runs until it clears itself at
        step 20, or until `ticks` callbacks have run and the effect's cleanup clears it (the
        selection changed again). Returns the values the display took, in order. */
    method AnimateDisplay(ticks: nat) returns (frames: seq<int>)
      modifies this
      ensures |frames| == if ticks < Steps then ticks else Steps
      ensures forall k :: 0 <= k < |frames| ==> frames[k] == DisplayAfter(old(displayTotal), old(Target()), k + 1)
      ensures displayTotal == DisplayAfter(old(displayTotal), old(Target()), |frames|)
      ensures ticks >= Steps ==> displayTotal == Target()
      ensures selectedPlan == old(selectedPlan) && isYearly == old(isYearly)
      ensures selectedAddOns == old(selectedAddOns)
    {
      var targetTotal := Target();
      frames := RunInterval(targetTotal, ticks);
    }

    /** The interval itself: `Math.round(prev + increment)` on each callback, the target on
        the 20th, after which the interval clears itself. Only the display changes. */
    method RunInterval(targetTotal: int, ticks: nat) returns (frames: seq<int>)
      modifies this`displayTotal
      ensures |frames| == if ticks < Steps then ticks else Steps
      ensures forall k :: 0 <= k < |frames| ==> frames[k] == DisplayAfter(old(displayTotal), targetTotal, k + 1)
      ensures displayTotal == DisplayAfter(old(displayTotal), targetTotal, |frames|)
      ensures ticks >= Steps ==> displayTotal == targetTotal
    {
      ghost var start := displayTotal;
      var increment := (targetTotal - displayTotal) as real / Steps as real;
      assert increment == Increment(start, targetTotal);
      var currentStep := 0;
      var cleared := false;
      frames := [];
      while !cleared && currentStep < ticks
        invariant 0 <= currentStep <= Steps && currentStep <= ticks
        invariant cleared <==> currentStep == Steps
        invariant |frames| == currentStep
        invariant forall k :: 0 <= k < |frames| ==> frames[k] == DisplayAfter(start, targetTotal, k + 1)
        invariant displayTotal == DisplayAfter(start, targetTotal, currentStep)
        decreases Steps - currentStep
      {
        currentStep := currentStep + 1;
        if currentStep >= Steps {
          displayTotal := targetTotal;
          cleared := true;
        } else {
          displayTotal := JsRound(displayTotal as real + increment);
        }
        DisplayStep(start, targetTotal, currentStep);
        frames := frames + [displayTotal];
      }
    }
  }
}
