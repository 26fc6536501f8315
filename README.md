# Pathan Fitness interactive widgets in Dafny

This project models the logic inside the interactive widgets of the Pathan Fitness website and
proves properties about that logic. Each widget is a small calculator or state machine:

- the membership cost calculator, with its animated total;
- the progress tracker, with weights, workouts and a day streak;
- the weekly class schedule, with its type filter and reservation list;
- the three-step free-trial form;
- the booking page and its confirmation dialog;
- the transformation gallery and the testimonial carousel;
- the animated statistics counter.

Each widget is one module:

- `Common` holds `Option`, JavaScript's `Math.round` and the clamp.
- `NumberText` holds `Number.prototype.toString(radix)` (section 21.1.3.6 of ECMA-262), ASCII
  upper-casing, and reading a numeral back.
- `CarouselIndex` holds the wrap-around index arithmetic that both carousels use.

React state becomes fields of a class. Each event handler becomes a method whose postcondition
gives the new state in terms of the old one. Pure computations are functions, and lemmas state
what the widgets promise:

- bounds on percentages;
- round trips of identifiers through base 36;
- the streak rule;
- the filter and reservation-list algebra;
- the carousel inverses;
- monotonicity of the count-up.

The model represents the source's values as follows:

- Prices are whole rupees (`int`). Weights, percentages and easing values are exact reals.
- Calendar days are integers in the browser's time zone.
- Clock readings are natural-number millisecond timestamps, passed in as parameters.
- Email validity comes from a library regular expression and is a boolean parameter.
- A persisted store (`localStorage`) is the field holding its value.
- A timer or animation frame firing is a method call (`Tick`, `Frame`, `DelayElapsed`,
  `AnimateDisplay`).

## Model

| member | source | states |
|---|---|---|
| Common.JsRound | src/components/interactive/ProgressTracker.tsx:81 | `Math.round` gives the integer within half of x, with halves rounded up |
| Common.Clamp | src/components/home/TransformationGallery.tsx:80 | `Math.max(lo, Math.min(hi, x))` lies in [lo, hi]. It is x inside the range, and the nearer bound outside |
| NumberText.Base36Upper | src/components/modals/BookingConfirmationModal.tsx:43 | `Date.now().toString(36).toUpperCase()`. No contract of its own; specified by `Base36UpperRoundTrip` and `Base36UpperInjective` |
| NumberText.ParseRadix | src/components/modals/BookingConfirmationModal.tsx:43 | the reading-back of a numeral in either case, used as the partner of `toString(radix)`. No contract of its own; specified by `ParseToRadix` and `ParseIgnoresCase` |
| NumberText.ToRadix | src/components/modals/BookingConfirmationModal.tsx:43 | `n.toString(radix)` is non-empty and made only of lower-case digits below the radix |
| NumberText.ParseToRadix | src/components/modals/BookingConfirmationModal.tsx:43 | reading `n.toString(radix)` back gives n |
| NumberText.ToRadixNoLeadingZero | src/components/modals/BookingConfirmationModal.tsx:43 | the numeral starts with '0' exactly when n is 0 |
| NumberText.ToUpper | src/components/modals/BookingConfirmationModal.tsx:43 | `toUpperCase` keeps the length and upper-cases each ASCII letter. Every other character is kept |
| NumberText.ParseIgnoresCase | src/components/modals/BookingConfirmationModal.tsx:43 | upper-casing does not change the value a numeral is read as |
| NumberText.Base36UpperRoundTrip | src/components/modals/BookingConfirmationModal.tsx:43 | the upper-case base-36 token is non-empty, uses only 0-9A-Z, and decodes back to the timestamp |
| NumberText.Base36UpperInjective | src/components/interactive/MultiStepTrialForm.tsx:79 | different timestamps give different tokens |
| Membership.Total | src/components/interactive/MembershipCalculator.tsx:64-75 | `calculateTotal`. No contract of its own; specified by `UnknownPlanGivesZero`, `MonthlyTotal`, `YearlyTotal`, `UnknownAddOnIgnoredInTotal` and `PremiumYearlyWithPtPack` |
| Membership.Savings | src/components/interactive/MembershipCalculator.tsx:77-88 | `calculateSavings`. No contract of its own; specified by `UnknownPlanGivesZero`, `MonthlyTotal`, `YearlyTotal`, `UnknownAddOnIgnoredInSavings` and `YearlySavingsPositive` |
| Membership.SavingsBadgeShown | src/components/interactive/MembershipCalculator.tsx:223 | the badge condition `savings > 0`. No contract of its own; specified by `YearlySavingsPositive` |
| Membership.FindPlan | src/components/interactive/MembershipCalculator.tsx:65 | `plans.find` on the catalogue. No contract of its own; specified by `FindPlanIn` and `PlanIdsUnique` |
| Membership.AddOnsSum | src/components/interactive/MembershipCalculator.tsx:69-72 | the add-on `reduce` of `calculateTotal`. No contract of its own; specified by `AddOnsSumAppend`, `AddOnsSumNonNegative` and `UnknownAddOnIgnoredInTotal` |
| Membership.AddOnsSavings | src/components/interactive/MembershipCalculator.tsx:82-85 | the add-on `reduce` of `calculateSavings`. No contract of its own; specified by `AddOnsSavingsIsTenthOfYear` |
| Membership.FindPlanIn | src/components/interactive/MembershipCalculator.tsx:65 | `find` returns a catalogue entry with that id, and returns nothing exactly when no entry has the id |
| Membership.FindAddOnIn | src/components/interactive/MembershipCalculator.tsx:70 | the same for add-ons |
| Membership.AddOnPrice | src/components/interactive/MembershipCalculator.tsx:70-71 | `addOn?.price \|\| 0` is never negative, and is 0 for an unknown id |
| Membership.AddOnsSumAppend | src/components/interactive/MembershipCalculator.tsx:69-72 | the add-on reduce over two concatenated lists is the sum of the two reduces |
| Membership.AddOnsSumNonNegative | src/components/interactive/MembershipCalculator.tsx:69-72 | the add-on sum is never negative |
| Membership.UnknownAddOnIgnoredInTotal | src/components/interactive/MembershipCalculator.tsx:69-72 | an unknown id anywhere in the selection adds nothing to the total |
| Membership.AddOnsSavingsIsTenthOfYear | src/components/interactive/MembershipCalculator.tsx:82-85 | the savings reduce equals 12 × (add-on sum) / 10 |
| Membership.UnknownAddOnIgnoredInSavings | src/components/interactive/MembershipCalculator.tsx:82-85 | an unknown id adds nothing to the savings |
| Membership.UnknownPlanGivesZero | src/components/interactive/MembershipCalculator.tsx:64-66 | without a matching plan, total and savings are both 0 |
| Membership.MonthlyTotal | src/components/interactive/MembershipCalculator.tsx:64-75 | billed monthly, the total is the monthly price plus the add-on prices, and the savings are 0 |
| Membership.YearlyTotal | src/components/interactive/MembershipCalculator.tsx:64-88 | billed yearly, the total is the yearly price plus 12 × add-ons. The savings are 12 × monthly − yearly + 12 × add-ons / 10 |
| Membership.PlanIdsUnique | src/components/interactive/MembershipCalculator.tsx:27-50 | no two plans share an id |
| Membership.CataloguePlansDiscounted | src/components/interactive/MembershipCalculator.tsx:27-50 | every yearly price is positive and below twelve monthly prices |
| Membership.YearlySavingsPositive | src/components/interactive/MembershipCalculator.tsx:77-88 | with any selection, a catalogue plan shows the savings badge billed yearly and never billed monthly |
| Membership.PremiumYearlyWithPtPack | src/components/interactive/MembershipCalculator.tsx:64-88 | premium yearly with the PT pack: total 77978, savings 10796.8, shown as 10797 |
| Membership.Without | src/components/interactive/MembershipCalculator.tsx:93 | the filter removes every copy of the id. Every other id is kept with its multiplicity |
| Membership.Toggled | src/components/interactive/MembershipCalculator.tsx:90-96 | `toggleAddOn`'s new list. No contract of its own; specified by `ToggleFlips`, `ToggleTwiceRestoresMembership`, `ToggleKeepsNoDuplicates` and `ToggleTwiceRestoresSelection` |
| Membership.ToggleFlips | src/components/interactive/MembershipCalculator.tsx:90-96 | a toggle flips whether the toggled id is selected, and changes no other id |
| Membership.ToggleTwiceRestoresMembership | src/components/interactive/MembershipCalculator.tsx:90-96 | two toggles of one id restore the set of selected ids |
| Membership.ToggleKeepsNoDuplicates | src/components/interactive/MembershipCalculator.tsx:90-96 | toggling keeps a duplicate-free selection duplicate-free |
| Membership.ToggleTwiceRestoresSelection | src/components/interactive/MembershipCalculator.tsx:90-96 | on a duplicate-free selection, two toggles restore the ids and their multiplicities |
| Membership.Increment | src/components/interactive/MembershipCalculator.tsx:102 | `(targetTotal - displayTotal) / steps`. No contract of its own; used by `DisplayDriftBounded` |
| Membership.DisplayAfter | src/components/interactive/MembershipCalculator.tsx:105-113 | the display after k interval callbacks. No contract of its own; specified by `DisplaySettlesOnTarget`, `DisplayDriftBounded` and `UnchangedTotalShowsSteadily`, and computed by `Calculator.RunInterval` |
| Membership.DisplaySettlesOnTarget | src/components/interactive/MembershipCalculator.tsx:107-109 | from step 20 on, the display shows exactly the target total |
| Membership.DisplayDriftBounded | src/components/interactive/MembershipCalculator.tsx:102-112 | before step 20, the display is within k/2 of start + k × increment |
| Membership.UnchangedTotalShowsSteadily | src/components/interactive/MembershipCalculator.tsx:102-112 | when the target equals the display, every step shows that value |
| Membership.Calculator.Target | src/components/interactive/MembershipCalculator.tsx:99 | `calculateTotal()` on the current selection. No contract of its own; it reads only the three selection fields, so the display animation leaves it unchanged |
| Membership.Calculator.constructor | src/components/interactive/MembershipCalculator.tsx:59-62 | the initial state is premium, monthly, no add-ons, display 0 |
| Membership.Calculator.SelectPlan | src/components/interactive/MembershipCalculator.tsx:136 | sets the plan and keeps the rest |
| Membership.Calculator.SetYearly | src/components/interactive/MembershipCalculator.tsx:163 | sets the billing period and keeps the rest |
| Membership.Calculator.ToggleAddOn | src/components/interactive/MembershipCalculator.tsx:90-96 | the selection becomes the toggled list |
| Membership.Calculator.AnimateDisplay | src/components/interactive/MembershipCalculator.tsx:98-116 | the interval shows min(ticks, 20) values, the k-th being step k of the 20-step run. After 20 callbacks the display is the target |
| Membership.Calculator.RunInterval | src/components/interactive/MembershipCalculator.tsx:100-115 | the interval changes only the display. Each callback shows the next value of the run towards the given target, and the 20th shows the target itself |
| Progress.ClampedPercent | src/components/interactive/ProgressTracker.tsx:81 | `min(100, round(part/whole × 100))` lies in [0, 100]. It is no number (NaN) exactly when both operands are 0, and 100 once part ≥ whole |
| Progress.WeightProgress | src/components/interactive/ProgressTracker.tsx:77-82 | `weightProgress()`. No contract of its own; specified by `WeightProgressUninitialized`, `WeightProgressInRange`, `WeightProgressZeroDistance` and `WeightProgressExamples` |
| Progress.WorkoutProgress | src/components/interactive/ProgressTracker.tsx:84-86 | `workoutProgress()`. No contract of its own; specified by `WorkoutProgressInRange` and `WorkoutProgressAgainstDefaultGoal` |
| Progress.NextStreak | src/components/interactive/ProgressTracker.tsx:56-61 | the streak rule of `logWorkout`. No contract of its own; specified by `StreakRule` |
| Progress.AfterLogWorkout | src/components/interactive/ProgressTracker.tsx:51-69 | the record `logWorkout` writes. No contract of its own; specified by `LogWorkoutCounts`, `TwoLogsSameDay`, `LogDailyFromStreak` and `ConsecutiveDaysBuildStreak` |
| Progress.AfterSaveGoals | src/components/interactive/ProgressTracker.tsx:40-49 | the record `handleSaveGoals` writes. No contract of its own; specified by `GoalSaveThenLogKeepsStreakZero` and `HandlersKeepWorkoutGoal` |
| Progress.AfterWeightUpdate | src/components/interactive/ProgressTracker.tsx:190-194 | the record the weight prompt writes. No contract of its own; specified by `WeightUpdateThenLogKeepsStreak` and `HandlersKeepWorkoutGoal` |
| Progress.WeightProgressUninitialized | src/components/interactive/ProgressTracker.tsx:78 | with no start weight or no goal weight, the weight progress is 0 |
| Progress.WeightProgressInRange | src/components/interactive/ProgressTracker.tsx:77-82 | with distinct start and goal, the progress is the capped, rounded share of the distance covered, in [0, 100] |
| Progress.WeightProgressZeroDistance | src/components/interactive/ProgressTracker.tsx:79-81 | start equal to a non-zero goal gives 100, or NaN while the current weight is the start weight |
| Progress.WeightProgressExamples | src/components/interactive/ProgressTracker.tsx:77-82 | 90→80 towards 70 gives 50. Moving away to 100 also gives 50, and overshooting to 60 gives 100 |
| Progress.WorkoutProgressInRange | src/components/interactive/ProgressTracker.tsx:84-86 | with a positive goal, the workout progress lies in [0, 100], and is 100 once the goal is reached |
| Progress.WorkoutProgressAgainstDefaultGoal | src/components/interactive/ProgressTracker.tsx:84-86 | against the goal of 20, each workout adds 5% |
| Progress.LogWorkoutCounts | src/components/interactive/ProgressTracker.tsx:63-68 | a log adds exactly one workout, stamps today and keeps the other fields |
| Progress.StreakRule | src/components/interactive/ProgressTracker.tsx:56-61 | last stamp yesterday gives +1, today leaves the streak unchanged, otherwise the streak becomes 1 |
| Progress.TwoLogsSameDay | src/components/interactive/ProgressTracker.tsx:51-69 | a second log on the same day adds a workout but does not change the streak |
| Progress.LogDailyFromStreak | src/components/interactive/ProgressTracker.tsx:51-69 | n daily logs after yesterday's stamp add n to the streak and to the workouts |
| Progress.ConsecutiveDaysBuildStreak | src/components/interactive/ProgressTracker.tsx:51-69 | n consecutive days of logging give streak n. A log after a gap resets the streak to 1 |
| Progress.GoalSaveThenLogKeepsStreakZero | src/components/interactive/ProgressTracker.tsx:40-69 | saving goals stamps today, so a first log later that day leaves the streak at 0 |
| Progress.WeightUpdateThenLogKeepsStreak | src/components/interactive/ProgressTracker.tsx:191-193 | a weight update today stops a log today from extending yesterday's streak |
| Progress.HandlersKeepWorkoutGoal | src/components/interactive/ProgressTracker.tsx:21-75 | no handler changes the workout goal, and the default goal is 20 |
| Progress.Tracker.constructor | src/components/interactive/ProgressTracker.tsx:32-33 | starts from the stored record, and edits when no start weight is set |
| Progress.Tracker.SaveGoals | src/components/interactive/ProgressTracker.tsx:40-49 | writes the three weights and today's stamp, and leaves editing |
| Progress.Tracker.LogWorkout | src/components/interactive/ProgressTracker.tsx:51-69 | writes the record the streak rule gives |
| Progress.Tracker.ResetProgress | src/components/interactive/ProgressTracker.tsx:71-75 | restores the default record and returns to editing |
| Progress.Tracker.UpdateWeight | src/components/interactive/ProgressTracker.tsx:190-194 | a cancelled or empty prompt changes nothing. Otherwise it writes the weight and today's stamp |
| Schedule.Matches | src/components/interactive/ClassScheduleCalendar.tsx:116 | `filter === "all" \|\| c.type === filter`. No contract of its own; specified by `FilterClassesSingle`, `FilterAllKeepsEverything` and `FilteredScheduleByType` |
| Schedule.FilterClasses | src/components/interactive/ClassScheduleCalendar.tsx:116 | keeps only matching sessions, drawn from the input |
| Schedule.FilterClassesAppend | src/components/interactive/ClassScheduleCalendar.tsx:116 | the filter distributes over concatenation, so the kept sessions stay in order |
| Schedule.FilterClassesSingle | src/components/interactive/ClassScheduleCalendar.tsx:116 | a single session is kept iff it matches |
| Schedule.FilterClassesCounts | src/components/interactive/ClassScheduleCalendar.tsx:116 | every matching session is kept as often as it occurs, and nothing else is kept |
| Schedule.FilterAllKeepsEverything | src/components/interactive/ClassScheduleCalendar.tsx:116 | the filter "all" keeps every session |
| Schedule.FilteredSchedule | src/components/interactive/ClassScheduleCalendar.tsx:114-117 | all seven days are kept, in order, under their own names |
| Schedule.FilteredScheduleAll | src/components/interactive/ClassScheduleCalendar.tsx:114-117 | under "all", the filtered schedule is the catalogue |
| Schedule.FilteredScheduleByType | src/components/interactive/ClassScheduleCalendar.tsx:114-117 | under a type, each day keeps exactly its sessions of that type |
| Schedule.UnknownFilterEmptiesEveryDay | src/components/interactive/ClassScheduleCalendar.tsx:114-117 | a filter naming no type empties every day |
| Schedule.CatalogueWellFormed | src/components/interactive/ClassScheduleCalendar.tsx:27-83 | the catalogue has 20 sessions, each with 1 ≤ spots ≤ maxSpots |
| Schedule.CatalogueIdsUnique | src/components/interactive/ClassScheduleCalendar.tsx:27-83 | no session id occurs twice in the week |
| Schedule.ReserveEnabled | src/components/interactive/ClassScheduleCalendar.tsx:310 | the dialog button is enabled unless no spots are left. No contract of its own; specified by `CatalogueLowAvailability` and `Calendar.DialogAction` |
| Schedule.LowAvailability | src/components/interactive/ClassScheduleCalendar.tsx:206 | the `spots <= 3` warning colour. No contract of its own; specified by `CatalogueLowAvailability` |
| Schedule.CatalogueLowAvailability | src/components/interactive/ClassScheduleCalendar.tsx:206 | the low-spots colour shows for exactly mon-2, wed-3 and fri-2, and every session can be reserved |
| Schedule.HasClass | src/components/interactive/ClassScheduleCalendar.tsx:131-133 | `some` holds iff a reservation has that class id |
| Schedule.WithoutClass | src/components/interactive/ClassScheduleCalendar.tsx:136 | the filter keeps no entry with the id, and only entries of the input |
| Schedule.ReservationFor | src/components/interactive/ClassScheduleCalendar.tsx:121-127 | the reservation `handleReserve` appends, copying id, name, day and time and stamping the instant |
| Schedule.ReserveMakesReserved | src/components/interactive/ClassScheduleCalendar.tsx:127-133 | after an append the class is reserved. Every other class keeps its reserved status |
| Schedule.WithoutClassAppend | src/components/interactive/ClassScheduleCalendar.tsx:136 | removal distributes over concatenation, so the other entries keep their order |
| Schedule.WithoutClassCounts | src/components/interactive/ClassScheduleCalendar.tsx:136 | removal keeps every other entry with its multiplicity, and none of the id |
| Schedule.CancelMakesUnreserved | src/components/interactive/ClassScheduleCalendar.tsx:131-137 | after removal the class is not reserved. Every other class keeps its reserved status |
| Schedule.AppendKeepsNoDuplicates | src/components/interactive/ClassScheduleCalendar.tsx:294-313 | appending an unreserved class keeps the list duplicate-free |
| Schedule.WithoutClassKeepsNoDuplicates | src/components/interactive/ClassScheduleCalendar.tsx:135-137 | removal keeps the list duplicate-free |
| Schedule.ReserveTwicePermitsDuplicates | src/components/interactive/ClassScheduleCalendar.tsx:119-127 | `handleReserve` itself accepts the same class twice |
| Schedule.Calendar.IsReserved | src/components/interactive/ClassScheduleCalendar.tsx:131-133 | holds iff a stored reservation has the id |
| Schedule.Calendar.HandleReserve | src/components/interactive/ClassScheduleCalendar.tsx:119-129 | appends exactly one reservation copying id, name, day and time, and closes the dialog |
| Schedule.Calendar.CancelReservation | src/components/interactive/ClassScheduleCalendar.tsx:135-137 | removes every entry of the class, which is then not reserved |
| Schedule.Calendar.DialogAction | src/components/interactive/ClassScheduleCalendar.tsx:294-313 | cancels when reserved, reserves otherwise (only with spots left), and keeps the list duplicate-free |
| Schedule.Calendar.SelectClass | src/components/interactive/ClassScheduleCalendar.tsx:179-182 | opens the dialog for the session and day |
| Schedule.Calendar.CloseDialog | src/components/interactive/ClassScheduleCalendar.tsx:243 | closes the dialog and keeps the reservations |
| Schedule.Calendar.SetFilter | src/components/interactive/ClassScheduleCalendar.tsx:154 | sets the filter |
| TrialForm.StepOneValid | src/components/interactive/MultiStepTrialForm.tsx:13-17 | `stepOneSchema`: name of at least 2, a valid email, phone of at least 10. No contract of its own; specified by `Form.SubmitStepOne` and `BookPage.BookingStricterThanTrial` |
| TrialForm.StepTwoValid | src/components/interactive/MultiStepTrialForm.tsx:19-23 | `stepTwoSchema`: service, date and time non-empty. No contract of its own; specified by `Form.SubmitStepTwo` and `BookPage.BookingStricterThanTrial` |
| TrialForm.ParseTrialBookingId | src/components/interactive/MultiStepTrialForm.tsx:79 | reads the instant back out of a trial id. No contract of its own; specified by `TrialBookingIdRoundTrip` |
| TrialForm.BookingFrom | src/components/interactive/MultiStepTrialForm.tsx:72-81 | the booking `handleStepTwoSubmit` builds. Its `createdAt` is the second clock reading; the rest is specified by `BookingFromCopiesBothSteps` |
| TrialForm.TrialBookingId | src/components/interactive/MultiStepTrialForm.tsx:79 | the id is "PF-TRIAL-" followed by characters from 0-9A-Z only |
| TrialForm.TrialBookingIdRoundTrip | src/components/interactive/MultiStepTrialForm.tsx:79 | the id decodes back to the submission timestamp |
| TrialForm.BookingFromCopiesBothSteps | src/components/interactive/MultiStepTrialForm.tsx:72-81 | the stored booking carries the step-one and step-two fields unchanged. Its id decodes to the first clock reading, which is at most `createdAt` when the clock does not go backwards |
| TrialForm.Form.View | src/components/interactive/MultiStepTrialForm.tsx:100 | the summary shows exactly when a stored booking exists and the form is not complete |
| TrialForm.Form.constructor | src/components/interactive/MultiStepTrialForm.tsx:49-52 | mounts at step 1 with the stored booking, and shows the summary iff a booking is stored |
| TrialForm.Form.SubmitStepOne | src/components/interactive/MultiStepTrialForm.tsx:64-67 | with name ≥ 2, phone ≥ 10 and a valid email, stores the data and moves to step 2. Otherwise nothing changes |
| TrialForm.Form.Back | src/components/interactive/MultiStepTrialForm.tsx:288 | returns from step 2 to step 1 and keeps the data |
| TrialForm.Form.SubmitStepTwo | src/components/interactive/MultiStepTrialForm.tsx:69-86 | with all three fields non-empty and step-one data present, replaces the stored booking, completes and moves to step 3. The booking is built from the two clock readings. Otherwise nothing changes |
| TrialForm.Form.BookAnother | src/components/interactive/MultiStepTrialForm.tsx:121 | clears the stored booking, which brings back step 1 |
| TrialForm.StepTwoHasStepOneData | src/components/interactive/MultiStepTrialForm.tsx:70 | in any reachable state, step two has step-one data, so the guard is defensive |
| ConfirmationModal.BookingReference | src/components/modals/BookingConfirmationModal.tsx:43 | the reference is "PF-" followed by characters from 0-9A-Z only |
| ConfirmationModal.Render | src/components/modals/BookingConfirmationModal.tsx:31-46 | renders nothing exactly when the details are null. Otherwise the dialog has the given open flag, the details and the reference |
| ConfirmationModal.ParseReference | src/components/modals/BookingConfirmationModal.tsx:43 | reads the instant back out of a reference. No contract of its own; specified by `ReferenceRoundTrip` |
| ConfirmationModal.ReferenceRoundTrip | src/components/modals/BookingConfirmationModal.tsx:43 | the token after "PF-" decodes back to the render timestamp |
| ConfirmationModal.ReferenceChangesWithRenderTime | src/components/modals/BookingConfirmationModal.tsx:43 | renders at different instants show different references |
| ConfirmationModal.OccurrencesAppend | src/components/modals/BookingConfirmationModal.tsx:43 | the '-' count of a concatenation is the sum of the two counts |
| ConfirmationModal.ReferenceDashCount | src/components/modals/BookingConfirmationModal.tsx:43 | a booking reference contains exactly one '-' |
| ConfirmationModal.TrialIdDashCount | src/components/interactive/MultiStepTrialForm.tsx:79 | a trial booking id contains exactly two '-' |
| ConfirmationModal.ReferenceDistinctFromTrialId | src/components/modals/BookingConfirmationModal.tsx:43 | a booking reference never equals a trial booking id |
| BookPage.BookingValid | src/pages/Book.tsx:43-51 | `bookingSchema`: name 2 to 100, a valid email, phone 10 to 15, service, date and time non-empty, an optional message of at most 500. No contract of its own; specified by `EmptyFormRejected`, `MessageOptional`, `LengthBoundsSharp`, `BookingStricterThanTrial` and `Page.Submit` |
| BookPage.EmptyFormRejected | src/pages/Book.tsx:70-78 | the default (empty) form never validates |
| BookPage.MessageOptional | src/pages/Book.tsx:50 | the message may be absent. A present message validates iff it has at most 500 characters |
| BookPage.LengthBoundsSharp | src/pages/Book.tsx:44-46 | one character beyond any name or phone bound is rejected |
| BookPage.BookingStricterThanTrial | src/pages/Book.tsx:43-51 | a valid booking form would also pass both trial-form steps |
| BookPage.DialogDetails | src/pages/Book.tsx:88-96 | the dialog receives every field but the message, unchanged |
| BookPage.Page.Dialog | src/pages/Book.tsx:327 | the page's dialog renders nothing exactly when no details are kept |
| BookPage.Page.Submit | src/pages/Book.tsx:81-82 | the schema gates the submission, which marks the page as submitting |
| BookPage.Page.DelayElapsed | src/pages/Book.tsx:85-97 | after the delay, stops submitting, keeps a copy of all seven fields and opens the dialog |
| BookPage.Page.CloseModal | src/pages/Book.tsx:101-104 | closes the dialog and clears the details, so the dialog renders nothing |
| BookPage.SubmissionShowsItsDetails | src/pages/Book.tsx:88-97 | the opened dialog lists the submitted fields, and its reference decodes to the render instant |
| CarouselIndex.Next | src/components/home/TransformationGallery.tsx:90 | `(i + 1) % n` is in [0, n): i + 1, or 0 after the last slide |
| CarouselIndex.Prev | src/components/home/TransformationGallery.tsx:85 | `(i − 1 + n) % n` is in [0, n): i − 1, or the last slide from 0 |
| CarouselIndex.PrevNextInverse | src/components/home/TransformationGallery.tsx:85-91 | prev undoes next and next undoes prev |
| CarouselIndex.Advance | src/components/home/TestimonialsSection.tsx:45-51 | k auto-advance ticks. No contract of its own; specified by `AdvanceIsOffset` and `FullRoundReturns` |
| CarouselIndex.AdvanceIsOffset | src/components/home/TestimonialsSection.tsx:48 | k forward steps from i land on (i + k) % n |
| CarouselIndex.FullRoundReturns | src/components/home/TestimonialsSection.tsx:48 | n forward steps return to the start |
| Gallery.SliderPercentage | src/components/home/TransformationGallery.tsx:75-82 | `handleSliderChange`'s clamped split. No contract of its own; specified by `SliderPercentageRange`, `SliderPercentageTracksPointer` and `SliderPercentageMonotone` |
| Gallery.SliderPercentageRange | src/components/home/TransformationGallery.tsx:79-80 | the split lies in [0, 100]. It is 0 at the left edge and 100 at the right edge |
| Gallery.SliderPercentageTracksPointer | src/components/home/TransformationGallery.tsx:79-80 | inside the box the split is (x − left) / width × 100. Outside, it is the nearer bound |
| Gallery.SliderPercentageMonotone | src/components/home/TransformationGallery.tsx:79-80 | a pointer further right never moves the split left |
| Gallery.TransformationGallery.GoToPrev | src/components/home/TransformationGallery.tsx:84-87 | goes to the previous transformation and re-centres the split at 50 |
| Gallery.TransformationGallery.GoToNext | src/components/home/TransformationGallery.tsx:89-92 | goes to the next transformation and re-centres the split at 50 |
| Gallery.TransformationGallery.DotClick | src/components/home/TransformationGallery.tsx:204 | jumps to the dot and re-centres the split at 50 |
| Gallery.TransformationGallery.MouseDown | src/components/home/TransformationGallery.tsx:141 | starts a drag and moves the split to the pointer |
| Gallery.TransformationGallery.MouseMove | src/components/home/TransformationGallery.tsx:140 | moves the split only while dragging |
| Gallery.TransformationGallery.MouseUp | src/components/home/TransformationGallery.tsx:142 | ends the drag |
| Gallery.TransformationGallery.MouseLeave | src/components/home/TransformationGallery.tsx:143 | ends the drag |
| Gallery.TransformationGallery.TouchMove | src/components/home/TransformationGallery.tsx:144 | moves the split whether or not a mouse drag is on |
| Testimonials.SwipeOutcome | src/components/home/TestimonialsSection.tsx:64-71 | `handleDragEnd`'s choice. No contract of its own; specified by `SwipeOutcomeThresholds` |
| Testimonials.DotDirection | src/components/home/TestimonialsSection.tsx:171 | the dot click's direction. No contract of its own; specified by `DotDirectionSign` |
| Testimonials.SwipeOutcomeThresholds | src/components/home/TestimonialsSection.tsx:64-71 | an offset > 50 goes back and an offset < −50 goes forward. An offset in [−50, 50] does nothing |
| Testimonials.DotDirectionSign | src/components/home/TestimonialsSection.tsx:171 | the direction is 1 iff the dot is right of the current one, otherwise −1, including the current dot |
| Testimonials.Carousel.GoToPrev | src/components/home/TestimonialsSection.tsx:53-56 | sets direction −1 and goes to the previous index, staying in [0, 4) |
| Testimonials.Carousel.GoToNext | src/components/home/TestimonialsSection.tsx:58-61 | sets direction 1 and goes to the next index, staying in [0, 4) |
| Testimonials.Carousel.Tick | src/components/home/TestimonialsSection.tsx:45-51 | the auto-advance is the same step as the forward arrow |
| Testimonials.Carousel.DragEnd | src/components/home/TestimonialsSection.tsx:64-71 | acts as prev, as next, or not at all, according to the swipe threshold |
| Testimonials.Carousel.DotClick | src/components/home/TestimonialsSection.tsx:170-173 | sets the index to the dot, with the dot direction |
| Testimonials.AutoAdvanceCycles | src/components/home/TestimonialsSection.tsx:45-51 | four auto-advance ticks return to the testimonial they started from |
| StatsCounter.FormatNumber | src/components/interactive/AnimatedStatsCounter.tsx:20-28 | `formatNumber`. No contract beyond a non-empty result; specified by `FormatNumberReadsBack` and `FormatNumberExamples` |
| StatsCounter.MillionTenths | src/components/interactive/AnimatedStatsCounter.tsx:22 | `(num / 1000000).toFixed(1)` as tenths, rounded half-up. No contract of its own; specified by `ReadBackMillions` |
| StatsCounter.Thousands | src/components/interactive/AnimatedStatsCounter.tsx:25 | `(num / 1000).toFixed(0)`, rounded half-up. No contract of its own; specified by `ReadBackThousands` |
| StatsCounter.FormatNumberReadsBack | src/components/interactive/AnimatedStatsCounter.tsx:20-28 | below 1000 the text reads back as the number itself. In the K range it is within 500, in the M range within 50000 |
| StatsCounter.ReadBackMillions | src/components/interactive/AnimatedStatsCounter.tsx:21-23 | the "M" text reads back as the one-decimal rounding of n / 10^6 |
| StatsCounter.ReadBackThousands | src/components/interactive/AnimatedStatsCounter.tsx:24-26 | the "K" text reads back as the whole-number rounding of n / 1000 |
| StatsCounter.ReadBackPlain | src/components/interactive/AnimatedStatsCounter.tsx:27 | `toString` reads back exactly, negative numbers included |
| StatsCounter.FormatNumberExamples | src/components/interactive/AnimatedStatsCounter.tsx:20-28 | 1200000 → "1.2M", 999999 → "1000K", 5000 → "5K", 150 → "150", 25 → "25" |
| StatsCounter.Progress | src/components/interactive/AnimatedStatsCounter.tsx:43 | progress never exceeds 1. It is at least 0 once started, 1 from start + duration on, and below 1 before that |
| StatsCounter.ProgressMonotone | src/components/interactive/AnimatedStatsCounter.tsx:43 | a later frame never has less progress |
| StatsCounter.EaseOutQuart | src/components/interactive/AnimatedStatsCounter.tsx:46 | `1 - Math.pow(1 - progress, 4)`. No contract of its own; specified by `EaseOutQuartShape` |
| StatsCounter.CountAt | src/components/interactive/AnimatedStatsCounter.tsx:46-47 | `Math.floor(easeOutQuart * value)`. No contract of its own; specified by `CountAtShape` and `CountAtExample` |
| StatsCounter.Shown | src/components/interactive/AnimatedStatsCounter.tsx:65 | `formatNumber(count)` followed by the suffix. No contract of its own; specified by `FinalTexts` |
| StatsCounter.EaseOutQuartShape | src/components/interactive/AnimatedStatsCounter.tsx:46 | the easing rises from 0 to 1 and is non-decreasing on [0, 1] |
| StatsCounter.CountAtShape | src/components/interactive/AnimatedStatsCounter.tsx:46-47 | the count lies in [0, value], is 0 at p = 0, exactly value at p = 1, and non-decreasing in p |
| StatsCounter.CountAtExample | src/components/interactive/AnimatedStatsCounter.tsx:43-47 | 5000 ends on 5000 and shows 4687 half-way through |
| StatsCounter.FinalTexts | src/components/interactive/AnimatedStatsCounter.tsx:13-18 | the counted-up section reads "5K+", "1.2M+", "25" and "150+" |
| StatsCounter.CountUp.constructor | src/components/interactive/AnimatedStatsCounter.tsx:30-33 | the count starts at 0 and nothing is requested |
| StatsCounter.CountUp.BecomeVisible | src/components/interactive/AnimatedStatsCounter.tsx:33-36 | the first time the element is in view, the first frame is requested. Later calls change nothing |
| StatsCounter.CountUp.Frame | src/components/interactive/AnimatedStatsCounter.tsx:41-52 | the count moves to the eased value and never goes down. A next frame is requested iff progress < 1, and the last frame shows exactly value |
| StatsCounter.CountUp.Unmount | src/components/interactive/AnimatedStatsCounter.tsx:56-60 | cleanup cancels a requested frame |

## Left out

- IEEE-754 rounding is not modelled. All arithmetic is on exact rationals. Two consequences:
  - The savings figure is exactly 10796.8, not the nearest double.
  - `toFixed` rounds the exact quotient half-up. The page rounds the double quotient, which can
    differ at a tie such as 1150000 / 10^6.
- Dates and time zones are not modelled. A calendar day is an integer, and "yesterday" is the
  day before. `new Date(Date.now() - 86400000)` can be two days back or the same day around a
  daylight-saving change.
- Progress.AfterLogWorkout takes a single `today` for the three clock readings of `logWorkout`:
  - today's date;
  - `Date.now() - 86400000` for yesterday;
  - the `lastUpdated` stamp.
  A log that straddles midnight, or a day of other than 24 hours, can disagree with the model.
- ISO timestamp strings (`reservedAt`, `createdAt`, `lastUpdated`) are not modelled as text.
  They are kept as the instant or the day they stand for.
- `localStorage` persistence and JSON encoding are not modelled. Each store is the field that
  holds its value, read once at construction.
- Zod's email check is not modelled. Email validity is the `emailValid` parameter.
- String lengths are counted in characters, where zod counts UTF-16 code units.
- `toUpperCase` is modelled on ASCII letters only. The base-36 numerals that reach it contain
  no other letters.
- Progress.Tracker.SaveGoals takes the weights already parsed. `parseFloat(x) || 0` on the
  form text is not modelled.
- Progress.Tracker.UpdateWeight takes the parsed weight or `None`. A non-numeric answer to the
  prompt, which would store NaN, is not modelled.
- StatsCounter.FormatNumber does not model `toFixed`'s exponent notation from 10^21 on. It also
  does not model integers beyond 2^53.
- Timers and animation frames are not scheduled. They become explicit method calls:
  - the calculator's 25 ms interval callbacks (20 of them over the 500 ms run);
  - the 1.5 s submission delay;
  - the 6 s testimonial auto-advance;
  - `requestAnimationFrame`.
- StatsCounter.CountUp.Frame requires positive, time-ordered timestamps. A first frame at
  timestamp 0 is not modelled: there `startTime` stays falsy, and the next frame would take
  the start again.
- Framer-motion's `useInView` is not modelled. Coming into view is the `BecomeVisible` event.
- `form.reset()`, focus, hover, error-message rendering, the slide animations and the
  `getMinDate` date picker bound are not modelled: they are presentation.
- Gallery.SliderPercentage requires a box of positive width. A pointer event on a zero-width
  box, where the division is infinite or NaN, is not modelled.
- Gallery.TransformationGallery and Testimonials.Carousel keep only the number of slides (4).
  Slide contents are presentation.
- Pages, layout, routing and the decorative components are not part of this model: index,
  pricing, about, services, classes, contact, the header and footer, the hero, the logo, lazy
  images, skeletons and the newsletter form.
