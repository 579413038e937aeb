/** The health tracker (components/health.tsx): a water counter that never
    goes below zero, a list of today's meals, and running nutrition totals
    estimated from keywords in each meal's text. */
module Health {
  import opened Text

  /** The four nutrition counters. */
  datatype Nutrition = Nutrition(protein: int, iron: int, vitamins: int, calories: int) {

    /** Component-wise sum. */
    function Plus(other: Nutrition): Nutrition {
      Nutrition(protein + other.protein, iron + other.iron,
                vitamins + other.vitamins, calories + other.calories)
    }

    /** Every counter is at least zero. */
    predicate NonNegative() {
      protein >= 0 && iron >= 0 && vitamins >= 0 && calories >= 0
    }

    /** Every counter is at most the matching counter of `bound`. */
    predicate AtMost(bound: Nutrition) {
      protein <= bound.protein && iron <= bound.iron &&
      vitamins <= bound.vitamins && calories <= bound.calories
    }
  }

  const Zero := Nutrition(0, 0, 0, 0)

  /** The daily water target, in millilitres. */
  const WaterTarget := 2500

  /** One keyword rule of `calculateNutrition`: when any of its keywords
      occurs in the lower-cased meal, its amounts are added once. */
  datatype NutritionRule = NutritionRule(keywords: seq<string>, boost: Nutrition)

  const Greens := NutritionRule(["spinach", "green"], Nutrition(0, 15, 20, 50))
  const DryFruits := NutritionRule(["dates", "dry fruits"], Nutrition(0, 10, 0, 100))
  const Nuts := NutritionRule(["nuts", "almonds"], Nutrition(15, 5, 0, 150))
  const Meat := NutritionRule(["chicken", "fish"], Nutrition(25, 8, 0, 200))
  const Eggs := NutritionRule(["eggs"], Nutrition(12, 5, 0, 120))
  const Dairy := NutritionRule(["milk", "yogurt"], Nutrition(8, 0, 15, 100))

  /** The rules in the order the component applies them. */
  const NutritionRules: seq<NutritionRule> := [Greens, DryFruits, Nuts, Meat, Eggs, Dairy]

  /** Some keyword of `keywords` from position `j` on occurs in `lowered`. */
  predicate AnyOccurs(keywords: seq<string>, j: nat, lowered: string)
    decreases |keywords| - j
  {
    j < |keywords| && (Contains(lowered, keywords[j]) || AnyOccurs(keywords, j + 1, lowered))
  }

  /** The rule applies to `lowered`: one of its keywords occurs there. */
  predicate Fires(rule: NutritionRule, lowered: string) {
    AnyOccurs(rule.keywords, 0, lowered)
  }

  /** `AnyOccurs` is "some keyword from position `j` on occurs". */
  lemma {:induction false} AnyOccursIff(keywords: seq<string>, j: nat, lowered: string)
    ensures AnyOccurs(keywords, j, lowered) <==>
              exists i :: j <= i < |keywords| && Contains(lowered, keywords[i])
    decreases |keywords| - j
  {
    if j < |keywords| {
      AnyOccursIff(keywords, j + 1, lowered);
    }
  }

  /** Each counter of `acc` grows by the matching amount of `boost` when
      `fired` holds. */
  function AddIf(fired: bool, boost: Nutrition, acc: Nutrition): Nutrition {
    Nutrition(acc.protein + (if fired then boost.protein else 0),
              acc.iron + (if fired then boost.iron else 0),
              acc.vitamins + (if fired then boost.vitamins else 0),
              acc.calories + (if fired then boost.calories else 0))
  }

  /** One rule applied to the running totals. */
  function Apply(rule: NutritionRule, lowered: string, acc: Nutrition): Nutrition {
    AddIf(Fires(rule, lowered), rule.boost, acc)
  }

  /** The rules from position `k` on applied in order to the totals `acc`. */
  function ApplyFrom(rules: seq<NutritionRule>, k: nat, lowered: string, acc: Nutrition): Nutrition
    decreases |rules| - k
  {
    if k >= |rules| then acc else ApplyFrom(rules, k + 1, lowered, Apply(rules[k], lowered, acc))
  }

  /** The nutrition the component estimates for a meal: the table applied
      to the lower-cased meal, starting from nothing. */
  function Estimate(meal: string): (n: Nutrition)
    ensures n.NonNegative() && n.AtMost(Nutrition(60, 43, 35, 720))
    ensures n == Zero <==> forall k :: 0 <= k < |NutritionRules| ==> !Fires(NutritionRules[k], Lower(meal))
  {
    var l := Lower(meal);
    TableUnrolled(l);
    var rules := NutritionRules;
    assert rules[0] == Greens && rules[1] == DryFruits && rules[2] == Nuts;
    assert rules[3] == Meat && rules[4] == Eggs && rules[5] == Dairy;
    ApplyFrom(NutritionRules, 0, l, Zero)
  }

  /** Each rule of the table fires exactly when one of its keywords occurs. */
  lemma RulesFireOnKeywords(lowered: string)
    ensures Fires(Greens, lowered) == (Contains(lowered, "spinach") || Contains(lowered, "green"))
    ensures Fires(DryFruits, lowered) == (Contains(lowered, "dates") || Contains(lowered, "dry fruits"))
    ensures Fires(Nuts, lowered) == (Contains(lowered, "nuts") || Contains(lowered, "almonds"))
    ensures Fires(Meat, lowered) == (Contains(lowered, "chicken") || Contains(lowered, "fish"))
    ensures Fires(Eggs, lowered) == Contains(lowered, "eggs")
    ensures Fires(Dairy, lowered) == (Contains(lowered, "milk") || Contains(lowered, "yogurt"))
  {
  }

  /** The table applied from nothing is the six rules applied in turn. */
  lemma TableUnrolled(lowered: string)
    ensures ApplyFrom(NutritionRules, 0, lowered, Zero) ==
              Apply(Dairy, lowered, Apply(Eggs, lowered, Apply(Meat, lowered,
                Apply(Nuts, lowered, Apply(DryFruits, lowered, Apply(Greens, lowered, Zero))))))
  {
    var rules, l := NutritionRules, lowered;
    assert rules[0] == Greens && rules[1] == DryFruits && rules[2] == Nuts;
    assert rules[3] == Meat && rules[4] == Eggs && rules[5] == Dairy;
    var a1 := Apply(Greens, l, Zero);
    var a2 := Apply(DryFruits, l, a1);
    var a3 := Apply(Nuts, l, a2);
    var a4 := Apply(Meat, l, a3);
    var a5 := Apply(Eggs, l, a4);
    assert ApplyFrom(rules, 0, l, Zero) == ApplyFrom(rules, 1, l, a1);
    assert ApplyFrom(rules, 1, l, a1) == ApplyFrom(rules, 2, l, a2);
    assert ApplyFrom(rules, 2, l, a2) == ApplyFrom(rules, 3, l, a3);
    assert ApplyFrom(rules, 3, l, a3) == ApplyFrom(rules, 4, l, a4);
    assert ApplyFrom(rules, 4, l, a4) == ApplyFrom(rules, 5, l, a5);
    assert ApplyFrom(rules, 5, l, a5) == ApplyFrom(rules, 6, l, Apply(Dairy, l, a5));
  }

  /** The counters after the component's six keyword tests, given which of
      them succeeded, each success adding its amounts. */
  function NutritionFor(greens: bool, dryFruits: bool, nuts: bool, meat: bool, eggs: bool, dairy: bool): Nutrition {
    var n1 := AddIf(greens, Nutrition(0, 15, 20, 50), Zero);
    var n2 := AddIf(dryFruits, Nutrition(0, 10, 0, 100), n1);
    var n3 := AddIf(nuts, Nutrition(15, 5, 0, 150), n2);
    var n4 := AddIf(meat, Nutrition(25, 8, 0, 200), n3);
    var n5 := AddIf(eggs, Nutrition(12, 5, 0, 120), n4);
    AddIf(dairy, Nutrition(8, 0, 15, 100), n5)
  }

  /** `calculateNutrition(meal)`: the keyword tests of the component, in
      order, on the lower-cased meal. The result is what the rule table
      gives. */
  function CalculateNutrition(meal: string): (n: Nutrition)
    ensures n == Estimate(meal)
  {
    var mealLower := Lower(meal);
    KeywordTestsFollowTable(mealLower);
    NutritionFor(
      Contains(mealLower, "spinach") || Contains(mealLower, "green"),
      Contains(mealLower, "dates") || Contains(mealLower, "dry fruits"),
      Contains(mealLower, "nuts") || Contains(mealLower, "almonds"),
      Contains(mealLower, "chicken") || Contains(mealLower, "fish"),
      Contains(mealLower, "eggs"),
      Contains(mealLower, "milk") || Contains(mealLower, "yogurt"))
  }

  /** The six keyword tests, in order, give what the rule table gives. */
  lemma KeywordTestsFollowTable(l: string)
    ensures ApplyFrom(NutritionRules, 0, l, Zero) ==
      NutritionFor(
        Contains(l, "spinach") || Contains(l, "green"),
        Contains(l, "dates") || Contains(l, "dry fruits"),
        Contains(l, "nuts") || Contains(l, "almonds"),
        Contains(l, "chicken") || Contains(l, "fish"),
        Contains(l, "eggs"),
        Contains(l, "milk") || Contains(l, "yogurt"))
  {
    RulesFireOnKeywords(l);
    TableUnrolled(l);
    var a1 := AddIf(Contains(l, "spinach") || Contains(l, "green"), Nutrition(0, 15, 20, 50), Zero);
    assert Apply(Greens, l, Zero) == a1;
    var a2 := AddIf(Contains(l, "dates") || Contains(l, "dry fruits"), Nutrition(0, 10, 0, 100), a1);
    assert Apply(DryFruits, l, a1) == a2;
    var a3 := AddIf(Contains(l, "nuts") || Contains(l, "almonds"), Nutrition(15, 5, 0, 150), a2);
    assert Apply(Nuts, l, a2) == a3;
    var a4 := AddIf(Contains(l, "chicken") || Contains(l, "fish"), Nutrition(25, 8, 0, 200), a3);
    assert Apply(Meat, l, a3) == a4;
    var a5 := AddIf(Contains(l, "eggs"), Nutrition(12, 5, 0, 120), a4);
    assert Apply(Eggs, l, a4) == a5;
    assert Apply(Dairy, l, a5) == AddIf(Contains(l, "milk") || Contains(l, "yogurt"), Nutrition(8, 0, 15, 100), a5);
  }

  /** Whatever the tests give, every counter is non-negative and bounded by
      all the amounts together: protein 60, iron 43, vitamins 35,
      calories 720. */
  lemma NutritionForBounds(greens: bool, dryFruits: bool, nuts: bool, meat: bool, eggs: bool, dairy: bool)
    ensures NutritionFor(greens, dryFruits, nuts, meat, eggs, dairy).NonNegative()
    ensures NutritionFor(greens, dryFruits, nuts, meat, eggs, dairy).AtMost(Nutrition(60, 43, 35, 720))
  {
  }

  /** The counters stay at zero exactly when no test succeeds. */
  lemma NutritionForZero(greens: bool, dryFruits: bool, nuts: bool, meat: bool, eggs: bool, dairy: bool)
    ensures NutritionFor(greens, dryFruits, nuts, meat, eggs, dairy) == Zero <==>
              !greens && !dryFruits && !nuts && !meat && !eggs && !dairy
  {
  }

  /** Every estimate is non-negative and bounded: protein 60, iron 43,
      vitamins 35, calories 720. */
  lemma NutritionBounds(meal: string)
    ensures CalculateNutrition(meal).NonNegative()
    ensures CalculateNutrition(meal).AtMost(Nutrition(60, 43, 35, 720))
  {
    var l := Lower(meal);
    NutritionForBounds(
      Contains(l, "spinach") || Contains(l, "green"),
      Contains(l, "dates") || Contains(l, "dry fruits"),
      Contains(l, "nuts") || Contains(l, "almonds"),
      Contains(l, "chicken") || Contains(l, "fish"),
      Contains(l, "eggs"),
      Contains(l, "milk") || Contains(l, "yogurt"));
  }

  /** A meal with none of the keywords is worth nothing, and a meal with
      any of them is worth something. */
  lemma NoKeywordNoNutrition(meal: string)
    ensures var l := Lower(meal);
      CalculateNutrition(meal) == Zero <==>
        !(Contains(l, "spinach") || Contains(l, "green") || Contains(l, "dates") ||
          Contains(l, "dry fruits") || Contains(l, "nuts") || Contains(l, "almonds") ||
          Contains(l, "chicken") || Contains(l, "fish") || Contains(l, "eggs") ||
          Contains(l, "milk") || Contains(l, "yogurt"))
  {
    var l := Lower(meal);
    NutritionForZero(
      Contains(l, "spinach") || Contains(l, "green"),
      Contains(l, "dates") || Contains(l, "dry fruits"),
      Contains(l, "nuts") || Contains(l, "almonds"),
      Contains(l, "chicken") || Contains(l, "fish"),
      Contains(l, "eggs"),
      Contains(l, "milk") || Contains(l, "yogurt"));
  }

  /** Matching ignores case: a meal and its lower-case form are estimated
      alike. */
  lemma NutritionIgnoresCase(meal: string)
    ensures CalculateNutrition(Lower(meal)) == CalculateNutrition(meal)
  {
    LowerIdempotent(meal);
  }

  /** The totals depend only on which rules fire, not on how often or where
      their keywords occur: each rule counts at most once. */
  lemma {:induction false} SameRulesSameTotals(rules: seq<NutritionRule>, k: nat, a: string, b: string, acc: Nutrition)
    requires forall j :: k <= j < |rules| ==> (Fires(rules[j], a) <==> Fires(rules[j], b))
    ensures ApplyFrom(rules, k, a, acc) == ApplyFrom(rules, k, b, acc)
    decreases |rules| - k
  {
    if k < |rules| {
      SameRulesSameTotals(rules, k + 1, a, b, Apply(rules[k], a, acc));
    }
  }

  /** Two meals that trigger the same rules are worth the same, however
      often or wherever the keywords occur in them. */
  lemma SameRulesSameNutrition(a: string, b: string)
    requires forall j :: 0 <= j < |NutritionRules| ==>
               (Fires(NutritionRules[j], Lower(a)) <==> Fires(NutritionRules[j], Lower(b)))
    ensures CalculateNutrition(a) == CalculateNutrition(b)
  {
    SameRulesSameTotals(NutritionRules, 0, Lower(a), Lower(b), Zero);
  }

  /** `max(0, WaterTarget - intake)`: the water still needed today, never
      negative, and zero once the target is reached. */
  function RemainingWater(intake: int): (r: int)
    ensures r >= 0
    ensures intake + r >= WaterTarget
    ensures r == 0 || intake + r == WaterTarget
  {
    if WaterTarget - intake > 0 then WaterTarget - intake else 0
  }

  /** The `Health` component's state. */
  class HealthTracker {
    var waterIntake: int
    var nutrition: Nutrition
    var todaysMeals: seq<string>
    var newMeal: string

    /** The water counter and the nutrition totals never go negative. */
    ghost predicate Valid()
      reads this
    {
      waterIntake >= 0 && nutrition.NonNegative()
    }

    /** The initial state, before saved data is loaded. */
    constructor ()
      ensures Valid()
      ensures waterIntake == 0 && nutrition == Zero && todaysMeals == [] && newMeal == ""
    {
      waterIntake := 0;
      nutrition := Zero;
      todaysMeals := [];
      newMeal := "";
    }

    /** `addWater(amount)`: the intake moves by `amount` but stops at zero. */
    method AddWater(amount: int)
      requires Valid()
      modifies this`waterIntake
      ensures Valid()
      ensures waterIntake == if old(waterIntake) + amount < 0 then 0 else old(waterIntake) + amount
    {
      var newAmount := waterIntake + amount;
      if newAmount < 0 {
        newAmount := 0;
      }
      waterIntake := newAmount;
    }

    /** `addMeal()`: blank meal text changes nothing; otherwise the meal is
        appended to today's meals, each total grows by the meal's estimate,
        and the input is cleared. */
    method AddMeal()
      requires Valid()
      modifies this`todaysMeals, this`nutrition, this`newMeal
      ensures Valid()
      ensures IsBlank(old(newMeal)) ==>
                todaysMeals == old(todaysMeals) && nutrition == old(nutrition) && newMeal == old(newMeal)
      ensures !IsBlank(old(newMeal)) ==>
                todaysMeals == old(todaysMeals) + [old(newMeal)] &&
                nutrition == old(nutrition).Plus(CalculateNutrition(old(newMeal))) &&
                newMeal == ""
    {
      if IsBlank(newMeal) {
        return;
      }
      todaysMeals := todaysMeals + [newMeal];
      NutritionBounds(newMeal);
      nutrition := nutrition.Plus(CalculateNutrition(newMeal));
      newMeal := "";
    }
  }
}
