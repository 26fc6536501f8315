/** The booking confirmation dialog: nothing is rendered without booking details; otherwise the
    dialog shows the details and a reference computed from the clock at render time. */
module ConfirmationModal {
  import opened Common
  import opened NumberText
  import TrialForm

  datatype BookingDetails = BookingDetails(
    name: string, email: string, phone: string, service: string, date: string, time: string)

  /** What a render produces: the dialog's open flag, its reference and the details it lists. */
  datatype Rendered = Rendered(open: bool, reference: string, details: BookingDetails)

  const ReferencePrefix: string := "PF-"

  /** `bookingReference`: the prefix, then the render-time timestamp in upper-case base 36. */
  function BookingReference(now: nat): (r: string)
    ensures |r| > |ReferencePrefix| && r[..|ReferencePrefix|] == ReferencePrefix
    ensures forall i :: |ReferencePrefix| <= i < |r| ==> IsUpperBase36Char(r[i])
  {
    Base36UpperRoundTrip(now);
    ReferencePrefix + Base36Upper(now)
  }

  /** The component: `None` is the early `return null`. */
  function Render(isOpen: bool, details: Option<BookingDetails>, now: nat): (r: Option<Rendered>)
    ensures r.None? <==> details.None?
    ensures r.Some? ==> r.value.open == isOpen && r.value.details == details.value
                        && r.value.reference == BookingReference(now)
  {
    if details.None? then None else Some(Rendered(isOpen, BookingReference(now), details.value))
  }

  /** Reads the timestamp back out of a reference; `None` when the text is not one. */
  function ParseReference(r: string): Option<nat>
  {
    if |r| >= |ReferencePrefix| && r[..|ReferencePrefix|] == ReferencePrefix then ParseRadix(r[|ReferencePrefix|..], 36)
    else None
  }

  /** The token after "PF-" decodes back to the render instant. */
  lemma ReferenceRoundTrip(now: nat)
    ensures ParseReference(BookingReference(now)) == Some(now)
  {
    assert BookingReference(now)[|ReferencePrefix|..] == Base36Upper(now);
    Base36UpperRoundTrip(now);
  }

  /** Each render reads the clock again, so renders at different instants show different references. */
  lemma ReferenceChangesWithRenderTime(m: nat, n: nat)
    requires m != n
    ensures BookingReference(m) != BookingReference(n)
  {
    ReferenceRoundTrip(m);
    ReferenceRoundTrip(n);
  }

  /** The number of occurrences of `c` in `s`. */
  function Occurrences(s: string, c: char): (k: nat)
    ensures k <= |s|
  {
    if s == [] then 0 else (if s[0] == c then 1 else 0) + Occurrences(s[1..], c)
  }

  lemma {:induction false} OccurrencesAppend(a: string, b: string, c: char)
    ensures Occurrences(a + b, c) == Occurrences(a, c) + Occurrences(b, c)
    decreases |a|
  {
    if a == [] {
      assert a + b == b;
    } else {
      assert (a + b)[0] == a[0] && (a + b)[1..] == a[1..] + b;
      OccurrencesAppend(a[1..], b, c);
    }
  }

  lemma {:induction false} NoDashInToken(s: string)
    requires forall i :: 0 <= i < |s| ==> IsUpperBase36Char(s[i])
    ensures Occurrences(s, '-') == 0
    decreases |s|
  {
    if s != [] {
      NoDashInToken(s[1..]);
    }
  }

  lemma PrefixDashes()
    ensures Occurrences(ReferencePrefix, '-') == 1
    ensures Occurrences(TrialForm.TrialPrefix, '-') == 2
  {
    assert TrialForm.TrialPrefix == "PF-" + "TRIAL-";
    OccurrencesAppend("PF-", "TRIAL-", '-');
    assert "TRIAL-"[1..] == "RIAL-" && "RIAL-"[1..] == "IAL-" && "IAL-"[1..] == "AL-";
    assert "AL-"[1..] == "L-" && "L-"[1..] == "-" && "-"[1..] == "";
    assert "PF-"[1..] == "F-" && "F-"[1..] == "-";
  }

  /** A reference holds exactly one '-', the one of its prefix. */
  lemma ReferenceDashCount(m: nat)
    ensures Occurrences(BookingReference(m), '-') == 1
  {
    var t := Base36Upper(m);
    Base36UpperRoundTrip(m);
    assert BookingReference(m) == ReferencePrefix + t;
    OccurrencesAppend(ReferencePrefix, t, '-');
    NoDashInToken(t);
    PrefixDashes();
  }

  /** A trial booking id holds exactly two, both in "PF-TRIAL-". */
  lemma TrialIdDashCount(n: nat)
    ensures Occurrences(TrialForm.TrialBookingId(n), '-') == 2
  {
    var t := Base36Upper(n);
    Base36UpperRoundTrip(n);
    assert TrialForm.TrialBookingId(n) == TrialForm.TrialPrefix + t;
    OccurrencesAppend(TrialForm.TrialPrefix, t, '-');
    NoDashInToken(t);
    PrefixDashes();
  }

  /** So the two kinds of identifier never coincide. */
  lemma ReferenceDistinctFromTrialId(m: nat, n: nat)
    ensures BookingReference(m) != TrialForm.TrialBookingId(n)
  {
    ReferenceDashCount(m);
    TrialIdDashCount(n);
  }
}
