/** The three-step free-trial form: contact details, then service and slot, then a
    confirmation, with one stored trial booking that a new submission replaces. When a stored
    booking exists and no submission has completed in this visit, a summary replaces the form.
    Email validity is a library regular expression and enters as a boolean; each clock reading
    enters as a millisecond timestamp. */
module TrialForm {
  import opened Common
  import opened NumberText

  datatype StepOneData = StepOneData(name: string, email: string, phone: string)

  datatype StepTwoData = StepTwoData(service: string, preferredDate: string, preferredTime: string)

  /** `createdAt` is the handler's second clock reading in milliseconds, stored by the page as
      an ISO string. */
  datatype TrialBooking = TrialBooking(
    name: string, email: string, phone: string,
    service: string, preferredDate: string, preferredTime: string,
    bookingId: string, createdAt: nat)

  /** `stepOneSchema`: a name of at least 2 characters, a valid email, a phone of at least 10. */
  predicate StepOneValid(d: StepOneData, emailValid: bool)
  {
    |d.name| >= 2 && emailValid && |d.phone| >= 10
  }

  /** `stepTwoSchema`: service, date and time each chosen (non-empty). */
  predicate StepTwoValid(d: StepTwoData)
  {
    |d.service| >= 1 && |d.preferredDate| >= 1 && |d.preferredTime| >= 1
  }

  const TrialPrefix: string := "PF-TRIAL-"

  /** The `bookingId`: the prefix, then the timestamp in upper-case base 36. */
  function TrialBookingId(now: nat): (id: string)
    ensures |id| > |TrialPrefix| && id[..|TrialPrefix|] == TrialPrefix
    ensures forall i :: |TrialPrefix| <= i < |id| ==> IsUpperBase36Char(id[i])
  {
    Base36UpperRoundTrip(now);
    TrialPrefix + Base36Upper(now)
  }

  /** Reads the timestamp back out of a trial booking id; `None` when the text is not one. */
  function ParseTrialBookingId(id: string): Option<nat>
  {
    if |id| >= |TrialPrefix| && id[..|TrialPrefix|] == TrialPrefix then ParseRadix(id[|TrialPrefix|..], 36)
    else None
  }

  /** A trial booking id determines the instant it was made. */
  lemma TrialBookingIdRoundTrip(now: nat)
    ensures ParseTrialBookingId(TrialBookingId(now)) == Some(now)
  {
    assert TrialBookingId(now)[|TrialPrefix|..] == Base36Upper(now);
    Base36UpperRoundTrip(now);
  }

  /** The booking `handleStepTwoSubmit` stores: contact fields from step one, slot fields from
      step two. The handler reads the clock twice: `Date.now()` for the id, then `new Date()`
      for `createdAt`, so the two instants are separate parameters. */
  function BookingFrom(one: StepOneData, two: StepTwoData, idNow: nat, createdNow: nat): (b: TrialBooking)
    ensures b.createdAt == createdNow
  {
    TrialBooking(one.name, one.email, one.phone, two.service, two.preferredDate, two.preferredTime,
                 TrialBookingId(idNow), createdNow)
  }

  /** Every field of a stored booking comes from the step it was entered in. The id encodes the
      first clock reading, which is at most `createdAt` when the clock does not go backwards
      between the two reads. */
  lemma BookingFromCopiesBothSteps(one: StepOneData, two: StepTwoData, idNow: nat, createdNow: nat)
    ensures var b := BookingFrom(one, two, idNow, createdNow);
      StepOneData(b.name, b.email, b.phone) == one
      && StepTwoData(b.service, b.preferredDate, b.preferredTime) == two
      && ParseTrialBookingId(b.bookingId) == Some(idNow)
      && (idNow <= createdNow ==> ParseTrialBookingId(b.bookingId).value <= b.createdAt)
  {
    TrialBookingIdRoundTrip(idNow);
  }

  /** What the widget shows: the stored-booking summary, or the step `n` panel. */
  datatype View = Summary | Step(n: nat)

  class Form {
    var step: nat
    var stepOneData: Option<StepOneData>
    var isComplete: bool
    var trialBooking: Option<TrialBooking>

    /** The states the handlers can reach from mounting. */
    ghost predicate Valid()
      reads this
    {
      1 <= step <= 3
      && (step == 2 ==> stepOneData.Some?)
      && (step == 3 <==> isComplete)
      && (isComplete ==> trialBooking.Some?)
      && (trialBooking.Some? && !isComplete ==> step == 1 && stepOneData.None?)
    }

    /** The early return at the top of the render. */
    function View(): (v: View)
      reads this
      ensures v == Summary <==> trialBooking.Some? && !isComplete
    {
      if trialBooking.Some? && !isComplete then Summary else Step(step)
    }

    /** Mounting with whatever booking was stored before. */
    constructor (stored: Option<TrialBooking>)
      ensures step == 1 && stepOneData.None? && !isComplete && trialBooking == stored
      ensures Valid()
      ensures View() == if stored.Some? then Summary else Step(1)
    {
      step := 1;
      stepOneData := None;
      isComplete := false;
      trialBooking := stored;
    }

    /** Submitting step one: the schema gates `handleStepOneSubmit`, which keeps the data and
        moves on; an invalid form only shows its messages. */
    method SubmitStepOne(data: StepOneData, emailValid: bool)
      requires View() == Step(1)
      modifies this
      ensures StepOneValid(data, emailValid) ==> stepOneData == Some(data) && step == 2
      ensures !StepOneValid(data, emailValid) ==> stepOneData == old(stepOneData) && step == old(step)
      ensures isComplete == old(isComplete) && trialBooking == old(trialBooking)
      ensures old(Valid()) ==> Valid()
      ensures StepOneValid(data, emailValid) ==> View() == Step(2)
    {
      if StepOneValid(data, emailValid) {
        stepOneData := Some(data);
        step := 2;
      }
    }

    /** The Back button of step two. */
    method Back()
      requires View() == Step(2)
      modifies this
      ensures step == 1
      ensures stepOneData == old(stepOneData) && isComplete == old(isComplete) && trialBooking == old(trialBooking)
      ensures old(Valid()) ==> Valid()
      ensures View() == Step(1)
    {
      step := 1;
    }

    /** Submitting step two: the schema gates `handleStepTwoSubmit`, which does nothing without
        step-one data and otherwise replaces the stored booking and completes. */
    method SubmitStepTwo(data: StepTwoData, idNow: nat, createdNow: nat)
      requires View() == Step(2)
      modifies this
      ensures StepTwoValid(data) && old(stepOneData).Some? ==>
                trialBooking == Some(BookingFrom(old(stepOneData).value, data, idNow, createdNow))
                && isComplete && step == 3
      ensures !StepTwoValid(data) || old(stepOneData).None? ==>
                trialBooking == old(trialBooking) && isComplete == old(isComplete) && step == old(step)
      ensures stepOneData == old(stepOneData)
      ensures old(Valid()) ==> Valid()
    {
      if StepTwoValid(data) {
        if stepOneData.None? {
          return;
        }
        var one := stepOneData.value;
        var booking := TrialBooking(one.name, one.email, one.phone, data.service, data.preferredDate,
                                    data.preferredTime, TrialPrefix + Base36Upper(idNow), createdNow);
        trialBooking := Some(booking);
        isComplete := true;
        step := 3;
      }
    }

    /** "Book Another Trial" on the summary clears the stored booking, which brings back the form. */
    method BookAnother()
      requires View() == Summary
      modifies this
      ensures trialBooking.None?
      ensures step == old(step) && stepOneData == old(stepOneData) && isComplete == old(isComplete)
      ensures old(Valid()) ==> Valid() && View() == Step(1)
    {
      trialBooking := None;
    }
  }

  /** From a valid state, step two is only ever shown with step-one data present, so the guard of
      `handleStepTwoSubmit` is not reached through the form itself. */
  lemma StepTwoHasStepOneData(f: Form)
    requires f.Valid() && f.View() == Step(2)
    ensures f.stepOneData.Some?
  {
  }
}
