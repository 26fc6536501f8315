/** The session booking page: a validated form whose submission waits, then stores a copy of
    the entered fields and opens the confirmation dialog; closing the dialog clears the copy.
    The wait is split into the submission and its resumption, so the state in between, with
    the submit button disabled, is visible. Email validity enters as a boolean. */
module BookPage {
  import opened Common
  import TrialForm
  import ConfirmationModal

  /** The form fields; `message` is `None` when the field is absent. */
  datatype BookingFormData = BookingFormData(
    name: string, email: string, phone: string,
    service: string, date: string, time: string,
    message: Option<string>)

  /** `bookingSchema`. */
  predicate BookingValid(d: BookingFormData, emailValid: bool)
  {
    2 <= |d.name| <= 100
    && emailValid
    && 10 <= |d.phone| <= 15
    && |d.service| >= 1 && |d.date| >= 1 && |d.time| >= 1
    && (d.message.Some? ==> |d.message.value| <= 500)
  }

  /** The form's default values, every text empty. */
  const EmptyForm: BookingFormData := BookingFormData("", "", "", "", "", "", Some(""))

  /** The untouched form is rejected, whatever the email check says. */
  lemma EmptyFormRejected(emailValid: bool)
    ensures !BookingValid(EmptyForm, emailValid)
  {
  }

  /** The message is optional: leaving it out never makes a valid form invalid, and a filled-in
      message counts only through its length. */
  lemma MessageOptional(d: BookingFormData, emailValid: bool, m: string)
    requires BookingValid(d, emailValid)
    ensures BookingValid(d.(message := None), emailValid)
    ensures BookingValid(d.(message := Some(m)), emailValid) <==> |m| <= 500
  {
  }

  /** Each length bound is sharp: one character fewer or more is rejected wherever the schema
      has a bound. */
  lemma LengthBoundsSharp(d: BookingFormData, emailValid: bool)
    requires BookingValid(d, emailValid)
    ensures |d.name| == 2 ==> !BookingValid(d.(name := d.name[..1]), emailValid)
    ensures |d.name| == 100 ==> !BookingValid(d.(name := d.name + "x"), emailValid)
    ensures |d.phone| == 10 ==> !BookingValid(d.(phone := d.phone[..9]), emailValid)
    ensures |d.phone| == 15 ==> !BookingValid(d.(phone := d.phone + "0"), emailValid)
  {
  }

  /** A form the booking page accepts would also pass both steps of the trial form. */
  lemma BookingStricterThanTrial(d: BookingFormData, emailValid: bool)
    requires BookingValid(d, emailValid)
    ensures TrialForm.StepOneValid(TrialForm.StepOneData(d.name, d.email, d.phone), emailValid)
    ensures TrialForm.StepTwoValid(TrialForm.StepTwoData(d.service, d.date, d.time))
  {
  }

  /** The fields the dialog shows; everything but the message. */
  function DialogDetails(d: BookingFormData): (b: ConfirmationModal.BookingDetails)
    ensures b.name == d.name && b.email == d.email && b.phone == d.phone
    ensures b.service == d.service && b.date == d.date && b.time == d.time
  {
    ConfirmationModal.BookingDetails(d.name, d.email, d.phone, d.service, d.date, d.time)
  }

  class Page {
    var isSubmitting: bool
    var showModal: bool
    var bookingDetails: Option<BookingFormData>
    /** The data of a submission that is waiting out its delay. */
    var pending: Option<BookingFormData>

    constructor ()
      ensures !isSubmitting && !showModal && bookingDetails.None? && pending.None?
    {
      isSubmitting := false;
      showModal := false;
      bookingDetails := None;
      pending := None;
    }

    /** Consistency of the waiting submission with the disabled button. */
    ghost predicate Valid()
      reads this
    {
      isSubmitting <==> pending.Some?
    }

    /** What the dialog renders at instant `now`. */
    function Dialog(now: nat): (r: Option<ConfirmationModal.Rendered>)
      reads this
      ensures r.None? <==> bookingDetails.None?
      ensures r.Some? ==> r.value.open == showModal && r.value.details == DialogDetails(bookingDetails.value)
    {
      ConfirmationModal.Render(showModal, if bookingDetails.Some? then Some(DialogDetails(bookingDetails.value)) else None, now)
    }

    /** Pressing the enabled submit button: the schema gates `onSubmit`, whose first step marks
        the page as submitting. */
    method Submit(data: BookingFormData, emailValid: bool) returns (accepted: bool)
      requires !isSubmitting
      modifies this
      ensures accepted == BookingValid(data, emailValid)
      ensures accepted ==> isSubmitting && pending == Some(data)
      ensures !accepted ==> isSubmitting == old(isSubmitting) && pending == old(pending)
      ensures showModal == old(showModal) && bookingDetails == old(bookingDetails)
      ensures old(Valid()) ==> Valid()
    {
      accepted := BookingValid(data, emailValid);
      if accepted {
        isSubmitting := true;
        pending := Some(data);
      }
    }

    /** The rest of `onSubmit` once the delay is over: no longer submitting, a copy of all seven
        fields kept, the dialog open. */
    method DelayElapsed()
      requires pending.Some?
      modifies this
      ensures !isSubmitting && pending.None?
      ensures bookingDetails == old(pending) && showModal
      ensures Valid()
    {
      var data := pending.value;
      isSubmitting := false;
      bookingDetails := Some(BookingFormData(data.name, data.email, data.phone, data.service,
                                             data.date, data.time, data.message));
      showModal := true;
      pending := None;
    }

    /** `handleCloseModal`: the dialog closes and, with no details left, renders nothing. */
    method CloseModal()
      modifies this
      ensures !showModal && bookingDetails.None?
      ensures isSubmitting == old(isSubmitting) && pending == old(pending)
      ensures forall now: nat :: Dialog(now).None?
    {
      showModal := false;
      bookingDetails := None;
    }
  }

  /** A full submission opens a dialog that lists exactly the submitted fields. */
  lemma SubmissionShowsItsDetails(d: BookingFormData, open: bool, now: nat)
    ensures var r := ConfirmationModal.Render(open, Some(DialogDetails(d)), now);
      r.Some? && r.value.details.name == d.name && r.value.details.email == d.email
      && r.value.details.phone == d.phone && r.value.details.service == d.service
      && r.value.details.date == d.date && r.value.details.time == d.time
      && ConfirmationModal.ParseReference(r.value.reference) == Some(now)
  {
    ConfirmationModal.ReferenceRoundTrip(now);
  }
}
