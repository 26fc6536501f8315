/** The progress tracker: a persisted record of weights, logged workouts and a day streak,
    the two percentages derived from it, and the handlers that overwrite it. Weights are
    exact reals (kg), calendar days are integers in the browser's local time zone, and
    "now" is passed in as the current day. */
module Progress {
  import opened Common

  /** A local calendar day; the day before `d` is `d - 1`. */
  type Day = int

  /** `UserProgress`; `lastUpdated` is the day of the stored ISO instant, `None` for "". */
  datatype UserProgress = UserProgress(
    startWeight: real,
    currentWeight: real,
    goalWeight: real,
    workoutsLogged: nat,
    workoutGoal: nat,
    streak: nat,
    lastUpdated: Option<Day>)

  const DefaultProgress: UserProgress := UserProgress(0.0, 0.0, 0.0, 0, 20, 0, None)

  function Abs(x: real): real { if x < 0.0 then -x else x }

  /** `Math.min(100, Math.round(part / whole * 100))` for non-negative operands, following
      IEEE-754 when `whole` is 0: a positive part over 0 is +Infinity, which the `min` turns
      into 100; 0 / 0 is NaN, which `min` and `round` keep, written `None` here. */
  function ClampedPercent(part: real, whole: real): (r: Option<int>)
    requires part >= 0.0 && whole >= 0.0
    ensures r.None? <==> part == 0.0 && whole == 0.0
    ensures r.Some? ==> 0 <= r.value <= 100
    ensures part >= whole && r.Some? ==> r.value == 100
  {
    if whole == 0.0 then (if part == 0.0 then None else Some(100))
    else
      assert part / whole >= 0.0;
      assert part >= whole ==> part / whole >= 1.0;
      Some(MinInt(100, JsRound(part / whole * 100.0)))
  }

  /** `weightProgress()`. */
  function WeightProgress(p: UserProgress): Option<int>
  {
    if p.startWeight == 0.0 || p.goalWeight == 0.0 then Some(0)
    else ClampedPercent(Abs(p.startWeight - p.currentWeight), Abs(p.startWeight - p.goalWeight))
  }

  /** `workoutProgress()`. */
  function WorkoutProgress(p: UserProgress): Option<int>
  {
    ClampedPercent(p.workoutsLogged as real, p.workoutGoal as real)
  }

  /** The streak rule of `logWorkout`: one more after a log yesterday, unchanged after a log
      (or any other stamp) today, and 1 otherwise, which covers "never" and a broken streak. */
  function NextStreak(streak: nat, lastUpdated: Option<Day>, today: Day): nat
  {
    var yesterday := today - 1;
    if lastUpdated == Some(yesterday) then streak + 1
    else if lastUpdated != Some(today) then 1
    else streak
  }

  /** The record written by `logWorkout` on day `today`. */
  function AfterLogWorkout(p: UserProgress, today: Day): UserProgress
  {
    p.(workoutsLogged := p.workoutsLogged + 1,
       streak := NextStreak(p.streak, p.lastUpdated, today),
       lastUpdated := Some(today))
  }

  /** The record written by `handleSaveGoals` with the parsed form weights. */
  function AfterSaveGoals(p: UserProgress, start: real, current: real, goal: real, today: Day): UserProgress
  {
    p.(startWeight := start, currentWeight := current, goalWeight := goal, lastUpdated := Some(today))
  }

  /** The record written by the "Update Weight" handler for an entered weight. */
  function AfterWeightUpdate(p: UserProgress, weight: real, today: Day): UserProgress
  {
    p.(currentWeight := weight, lastUpdated := Some(today))
  }

  // ---------------------------------------------------------------- percentages

  /** Without a start or a goal weight the weight progress is 0. */
  lemma WeightProgressUninitialized(p: UserProgress)
    requires p.startWeight == 0.0 || p.goalWeight == 0.0
    ensures WeightProgress(p) == Some(0)
  {
  }

  /** With distinct start and goal the weight progress is the rounded share of the distance
      travelled from the start, capped at 100, and always a number in [0, 100], also when the
      current weight overshoots the goal or moves away from it. */
  lemma WeightProgressInRange(p: UserProgress)
    requires p.startWeight != 0.0 && p.goalWeight != 0.0 && p.startWeight != p.goalWeight
    ensures WeightProgress(p).Some?
    ensures 0 <= WeightProgress(p).value <= 100
    ensures WeightProgress(p).value
            == MinInt(100, JsRound(Abs(p.startWeight - p.currentWeight) / Abs(p.startWeight - p.goalWeight) * 100.0))
  {
  }

  /** Start equal to a non-zero goal divides by zero: 100 once the current weight differs
      from the start, and NaN (no number) while it does not. */
  lemma WeightProgressZeroDistance(p: UserProgress)
    requires p.startWeight != 0.0 && p.startWeight == p.goalWeight
    ensures WeightProgress(p) == if p.currentWeight == p.startWeight then None else Some(100)
  {
  }

  /** Start 90, now 80, goal 70: half way, 50. Moving away to 100 also reports 50, and
      overshooting to 60 is capped at 100. */
  lemma WeightProgressExamples()
    ensures WeightProgress(DefaultProgress.(startWeight := 90.0, currentWeight := 80.0, goalWeight := 70.0)) == Some(50)
    ensures WeightProgress(DefaultProgress.(startWeight := 90.0, currentWeight := 100.0, goalWeight := 70.0)) == Some(50)
    ensures WeightProgress(DefaultProgress.(startWeight := 90.0, currentWeight := 60.0, goalWeight := 70.0)) == Some(100)
  {
    assert 10.0 / 20.0 * 100.0 == 50.0;
    assert 30.0 / 20.0 * 100.0 == 150.0;
  }

  /** With a positive goal the workout progress is a number in [0, 100]. */
  lemma WorkoutProgressInRange(p: UserProgress)
    requires p.workoutGoal > 0
    ensures WorkoutProgress(p).Some?
    ensures 0 <= WorkoutProgress(p).value <= 100
    ensures p.workoutsLogged >= p.workoutGoal ==> WorkoutProgress(p).value == 100
  {
  }

  /** Against the default goal of 20 each workout is worth 5%. */
  lemma WorkoutProgressAgainstDefaultGoal(p: UserProgress)
    requires p.workoutGoal == 20
    ensures WorkoutProgress(p) == Some(MinInt(100, 5 * p.workoutsLogged))
  {
    assert p.workoutsLogged as real / 20.0 * 100.0 == (5 * p.workoutsLogged) as real;
  }

  // ---------------------------------------------------------------- logging and streak

  /** A log adds exactly one workout, stamps today, and leaves weights and goal alone. */
  lemma LogWorkoutCounts(p: UserProgress, today: Day)
    ensures AfterLogWorkout(p, today).workoutsLogged == p.workoutsLogged + 1
    ensures AfterLogWorkout(p, today).lastUpdated == Some(today)
    ensures AfterLogWorkout(p, today).(workoutsLogged := p.workoutsLogged, streak := p.streak,
                                      lastUpdated := p.lastUpdated) == p
  {
  }

  /** The three cases of the streak rule. */
  lemma StreakRule(p: UserProgress, today: Day)
    ensures p.lastUpdated == Some(today - 1) ==> AfterLogWorkout(p, today).streak == p.streak + 1
    ensures p.lastUpdated == Some(today) ==> AfterLogWorkout(p, today).streak == p.streak
    ensures p.lastUpdated != Some(today - 1) && p.lastUpdated != Some(today) ==> AfterLogWorkout(p, today).streak == 1
  {
  }

  /** Two logs on one day add two workouts, but the second leaves the streak as the first set it. */
  lemma TwoLogsSameDay(p: UserProgress, today: Day)
    ensures AfterLogWorkout(AfterLogWorkout(p, today), today).workoutsLogged == p.workoutsLogged + 2
    ensures AfterLogWorkout(AfterLogWorkout(p, today), today).streak == AfterLogWorkout(p, today).streak
  {
  }

  /** Logging once a day on `n` consecutive days, starting on `first`. */
  function LogDaily(p: UserProgress, first: Day, n: nat): UserProgress
    decreases n
  {
    if n == 0 then p else LogDaily(AfterLogWorkout(p, first), first + 1, n - 1)
  }

  lemma {:induction false} LogDailyFromStreak(p: UserProgress, first: Day, n: nat)
    requires n >= 1 && p.lastUpdated == Some(first - 1)
    ensures LogDaily(p, first, n).streak == p.streak + n
    ensures LogDaily(p, first, n).workoutsLogged == p.workoutsLogged + n
    ensures LogDaily(p, first, n).lastUpdated == Some(first + n - 1)
    decreases n
  {
    var q := AfterLogWorkout(p, first);
    if n > 1 {
      LogDailyFromStreak(q, first + 1, n - 1);
    }
  }

  /** A fresh record logged on `n` consecutive days has an `n`-day streak; one more log after
      a gap of at least one full day starts over at 1. */
  lemma ConsecutiveDaysBuildStreak(n: nat, first: Day, gapDay: Day)
    requires n >= 1 && gapDay > first + n
    ensures LogDaily(DefaultProgress, first, n).streak == n
    ensures AfterLogWorkout(LogDaily(DefaultProgress, first, n), gapDay).streak == 1
  {
    var q := AfterLogWorkout(DefaultProgress, first);
    assert q.streak == 1;
    if n > 1 {
      LogDailyFromStreak(q, first + 1, n - 1);
    }
  }

  /** Saving goals stamps today, so a first workout logged later that day leaves the streak
      at 0 (no streak badge) although a workout was logged. */
  lemma GoalSaveThenLogKeepsStreakZero(start: real, current: real, goal: real, today: Day)
    ensures AfterLogWorkout(AfterSaveGoals(DefaultProgress, start, current, goal, today), today).streak == 0
    ensures AfterLogWorkout(AfterSaveGoals(DefaultProgress, start, current, goal, today), today).workoutsLogged == 1
  {
  }

  /** Likewise a weight update today, after a log yesterday, keeps the next log today from
      extending the streak. */
  lemma WeightUpdateThenLogKeepsStreak(p: UserProgress, weight: real, today: Day)
    requires p.lastUpdated == Some(today - 1)
    ensures AfterLogWorkout(AfterWeightUpdate(p, weight, today), today).streak == p.streak
    ensures AfterLogWorkout(p, today).streak == p.streak + 1
  {
  }

  /** Every handler keeps the workout goal; none but reset sets it, and reset sets 20. */
  lemma HandlersKeepWorkoutGoal(p: UserProgress, s: real, c: real, g: real, w: real, today: Day)
    ensures AfterLogWorkout(p, today).workoutGoal == p.workoutGoal
    ensures AfterSaveGoals(p, s, c, g, today).workoutGoal == p.workoutGoal
    ensures AfterWeightUpdate(p, w, today).workoutGoal == p.workoutGoal
    ensures DefaultProgress.workoutGoal == 20
  {
  }

  /** The persisted record and the editing flag of the widget. */
  class Tracker {
    var progress: UserProgress
    var isEditing: bool

    /** Mounting reads the stored record (or the default) and edits when no start weight is set. */
    constructor (stored: UserProgress)
      ensures progress == stored
      ensures isEditing == (stored.startWeight == 0.0)
    {
      progress := stored;
      isEditing := stored.startWeight == 0.0;
    }

    /** `handleSaveGoals`, with the form's weights already parsed (`parseFloat(..) || 0`). */
    method SaveGoals(start: real, current: real, goal: real, today: Day)
      modifies this
      ensures progress == AfterSaveGoals(old(progress), start, current, goal, today)
      ensures !isEditing
    {
      progress := progress.(startWeight := start, currentWeight := current, goalWeight := goal,
                            lastUpdated := Some(today));
      isEditing := false;
    }

    /** `logWorkout`. */
    method LogWorkout(today: Day)
      modifies this
      ensures progress == AfterLogWorkout(old(progress), today)
      ensures isEditing == old(isEditing)
    {
      var yesterday := today - 1;
      var newStreak := progress.streak;
      if progress.lastUpdated == Some(yesterday) {
        newStreak := progress.streak + 1;
      } else if progress.lastUpdated != Some(today) {
        newStreak := 1;
      }
      progress := progress.(workoutsLogged := progress.workoutsLogged + 1, streak := newStreak,
                            lastUpdated := Some(today));
    }

    /** `resetProgress`: back to the default record and to the goal form. */
    method ResetProgress()
      modifies this
      ensures progress == DefaultProgress
      ensures progress.workoutGoal == 20 && progress.streak == 0 && progress.lastUpdated == None
      ensures isEditing
    {
      progress := DefaultProgress;
      isEditing := true;
    }

    /** "Update Weight": `entered` is the parsed answer of the prompt, `None` when the prompt
        was cancelled or left empty, in which case nothing changes. */
    method UpdateWeight(entered: Option<real>, today: Day)
      modifies this
      ensures entered.None? ==> progress == old(progress)
      ensures entered.Some? ==> progress == AfterWeightUpdate(old(progress), entered.value, today)
      ensures isEditing == old(isEditing)
    {
      if entered.Some? {
        progress := progress.(currentWeight := entered.value, lastUpdated := Some(today));
      }
    }
  }
}
