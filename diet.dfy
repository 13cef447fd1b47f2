/**
 * The daily tracker of frontend/app/diet-lifestyle.bak/page.tsx: a water counter that stops
 * at the daily goal, the calorie total of the fixed meal plan, and the completed / remaining /
 * progress figures of the fixed list of lifestyle activities.
 */
module Diet {
  import opened Seqs
  import Prakriti

  /** `dailyGoal`: eight glasses. */
  const DailyGoal: int := 8

  /** The row of glasses: glass `i` is drawn filled exactly when `i < intake`. */
  function Glasses(intake: int): (g: seq<bool>)
    ensures |g| == DailyGoal
    ensures forall i :: 0 <= i < DailyGoal ==> (g[i] <==> i < intake)
  {
    seq(DailyGoal, i => i < intake)
  }

  /** With an intake between 0 and `n`, the first `intake` of `n` glasses are the filled ones,
      so the row shows as many filled glasses as the counter says. */
  lemma {:induction false} FilledGlasses(n: nat, intake: int)
    requires 0 <= intake <= n
    ensures Count(seq(n, i => i < intake), b => b) == intake
  {
    if n > 0 {
      if intake == n {
        FilterKeepsAll(seq(n, i => i < intake), b => b);
      } else {
        var f := (i: int) => i < intake;
        FilledGlasses(n - 1, intake);
        assert seq(n, f) == seq(n - 1, f) + [f(n - 1)];
        FilterAppend(seq(n - 1, f), [f(n - 1)], b => b);
      }
    }
  }

  lemma GlassesShowIntake(intake: int)
    requires 0 <= intake <= DailyGoal
    ensures Count(Glasses(intake), b => b) == intake
  {
    FilledGlasses(DailyGoal, intake);
  }

  class WaterTracker {
    var waterIntake: int

    ghost predicate Valid()
      reads this
    {
      0 <= waterIntake <= DailyGoal
    }

    constructor ()
      ensures Valid() && waterIntake == 0
    {
      waterIntake := 0;
    }

    /** The Add Glass button is greyed out at the goal. */
    predicate AddDisabled()
      reads this
    {
      waterIntake >= DailyGoal
    }

    /** `addWaterGlass`: one more glass, unless the goal is reached. */
    method AddWaterGlass()
      requires Valid()
      modifies this
      ensures Valid()
      ensures old(waterIntake) < DailyGoal ==> waterIntake == old(waterIntake) + 1
      ensures old(waterIntake) >= DailyGoal ==> waterIntake == old(waterIntake)
      ensures old(AddDisabled()) <==> waterIntake == old(waterIntake)
    {
      if waterIntake < DailyGoal {
        waterIntake := waterIntake + 1;
      }
    }

    /** `resetWaterIntake`. */
    method ResetWaterIntake()
      requires Valid()
      modifies this
      ensures Valid() && waterIntake == 0
    {
      waterIntake := 0;
    }
  }

  /* ---------------------------------------------------------------- meals */

  datatype Meal = Meal(time: string, name: string, calories: nat)

  /** `todaysMealPlan`. */
  const TodaysMealPlan: seq<Meal> := [
    Meal("7:00 AM", "Early Morning", 25),
    Meal("8:00 AM", "Breakfast", 350),
    Meal("12:30 PM", "Lunch", 450),
    Meal("4:00 PM", "Evening Snack", 150),
    Meal("7:00 PM", "Dinner", 300)
  ]

  /** The `reduce` that adds up the calories of a plan. */
  function TotalCalories(meals: seq<Meal>): (total: nat)
    ensures forall i :: 0 <= i < |meals| ==> meals[i].calories <= total
  {
    if meals == [] then 0 else meals[0].calories + TotalCalories(meals[1..])
  }

  lemma {:induction false} TotalCaloriesAppend(a: seq<Meal>, b: seq<Meal>)
    ensures TotalCalories(a + b) == TotalCalories(a) + TotalCalories(b)
  {
    if a == [] {
      assert a + b == b;
    } else {
      assert (a + b)[1..] == a[1..] + b;
      TotalCaloriesAppend(a[1..], b);
    }
  }

  /** The plan shown on the page adds up to 1275 calories. */
  lemma PlanCalories(meals: seq<Meal>)
    requires meals == TodaysMealPlan
    ensures TotalCalories(meals) == 1275
  {
    assert meals == meals[..2] + meals[2..];
    TotalCaloriesAppend(meals[..2], meals[2..]);
  }

  /* ---------------------------------------------------------------- activities */

  datatype Activity = Activity(id: string, title: string, completed: bool)

  /** `lifestyleActivities`: six, of which the second and third are done. */
  const LifestyleActivities: seq<Activity> := [
    Activity("1", "Morning Sun Salutation", false),
    Activity("2", "Pranayama Practice", true),
    Activity("3", "Oil Pulling", true),
    Activity("4", "Self Abhyanga", false),
    Activity("5", "Evening Meditation", false),
    Activity("6", "Walking in Nature", false)
  ]

  function Completed(acts: seq<Activity>): (n: nat)
    ensures n <= |acts|
  {
    Count(acts, (a: Activity) => a.completed)
  }

  function Remaining(acts: seq<Activity>): (n: nat)
    ensures n <= |acts|
  {
    Count(acts, (a: Activity) => !a.completed)
  }

  /** Every activity is counted once, as completed or as remaining. */
  lemma {:induction false} CompletedPlusRemaining(acts: seq<Activity>)
    ensures Completed(acts) + Remaining(acts) == |acts|
  {
    if acts != [] {
      CompletedPlusRemaining(acts[1..]);
      assert acts == [acts[0]] + acts[1..];
      FilterAppend([acts[0]], acts[1..], (a: Activity) => a.completed);
      FilterAppend([acts[0]], acts[1..], (a: Activity) => !a.completed);
    }
  }

  /** The progress figure, `Math.round(completed / total * 100)`, with the same rounding as
      the quiz percentages. */
  function Progress(acts: seq<Activity>): (p: int)
    requires acts != []
    ensures 0 <= p <= 100
    ensures 2 * |acts| * p <= 200 * Completed(acts) + |acts| < 2 * |acts| * (p + 1)
  {
    Prakriti.Percent(Completed(acts), |acts|)
  }

  /** The fixed list shows 2 done, 4 to go and 33% progress. */
  lemma PlanProgress(acts: seq<Activity>)
    requires acts == LifestyleActivities
    ensures Completed(acts) == 2 && Remaining(acts) == 4 && Progress(acts) == 33
  {
    CompletedPlusRemaining(acts);
    assert acts == acts[..3] + acts[3..];
    FilterAppend(acts[..3], acts[3..], (a: Activity) => a.completed);
  }
}
