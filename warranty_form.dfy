/**
 * The administrators' add/edit warranty dialog: a six-field form, prefilled
 * from the record being edited, whose only required field is the serial
 * number, and which saves by PUT for an existing record and POST for a new
 * one. The request is split into its start (`BeginSubmit`, which returns the
 * request to send, if any) and the arrival of its outcome (`FinishSubmit`).
 */
module WarrantyForm {
  import opened Wrappers
  import opened WarrantyRecords
  import Text

  datatype FormData = FormData(
    serialNumber: string, startDate: string, endDate: string,
    windowsKey: string, nicNumber: string, passcode: string)

  datatype FormField = SerialNumber | StartDate | EndDate | WindowsKey | NicNumber | Passcode

  function EmptyForm(): FormData {
    FormData("", "", "", "", "", "")
  }

  function Get(d: FormData, f: FormField): string {
    match f
    case SerialNumber => d.serialNumber
    case StartDate => d.startDate
    case EndDate => d.endDate
    case WindowsKey => d.windowsKey
    case NicNumber => d.nicNumber
    case Passcode => d.passcode
  }

  /** `{...formData, [name]: value}`. */
  function Set(d: FormData, f: FormField, v: string): (r: FormData)
    ensures Get(r, f) == v
    ensures forall g :: g != f ==> Get(r, g) == Get(d, g)
  {
    match f
    case SerialNumber => d.(serialNumber := v)
    case StartDate => d.(startDate := v)
    case EndDate => d.(endDate := v)
    case WindowsKey => d.(windowsKey := v)
    case NicNumber => d.(nicNumber := v)
    case Passcode => d.(passcode := v)
  }

  /** `s.split('T')[0]`: the text before the first 'T', or all of `s` when it has none. */
  function BeforeT(s: string): (r: string)
    ensures |r| <= |s| && r == s[..|r|]
    ensures 'T' !in r
    ensures |r| < |s| ==> s[|r|] == 'T'
  {
    if s == [] || s[0] == 'T' then [] else [s[0]] + BeforeT(s[1..])
  }

  /** A date and time written as `date` + "T" + `time` is cut back to `date`. */
  lemma {:induction false} BeforeTOfTimestamp(date: string, time: string)
    requires 'T' !in date
    ensures BeforeT(date + "T" + time) == date
  {
    if date != [] {
      assert (date + "T" + time)[1..] == date[1..] + "T" + time;
      BeforeTOfTimestamp(date[1..], time);
    }
  }

  /** A bare date without a 'T' is kept whole. */
  lemma {:induction false} BeforeTOfDate(date: string)
    requires 'T' !in date
    ensures BeforeT(date) == date
  {
    if date != [] {
      BeforeTOfDate(date[1..]);
    }
  }

  /** A date field of the record as the form shows it: absent or empty gives "", anything else its part before 'T'. */
  function DateInput(x: Option<string>): (r: string)
    ensures x.None? || x.value == "" ==> r == ""
    ensures x.Some? && x.value != "" ==> r == BeforeT(x.value)
  {
    if x.Some? && x.value != "" then BeforeT(x.value) else ""
  }

  /** The form prefilled from the record being edited; fields the record lacks are empty. */
  function Prefill(w: Warranty): (d: FormData)
    ensures d.serialNumber == w.serialNumber
    ensures d.startDate == DateInput(w.startDate) && d.endDate == DateInput(w.endDate)
    ensures d.windowsKey == TextOrEmpty(w.windowsKey) && d.nicNumber == TextOrEmpty(w.nicNumber)
    ensures d.passcode == TextOrEmpty(w.passcode)
  {
    FormData(w.serialNumber, DateInput(w.startDate), DateInput(w.endDate),
             TextOrEmpty(w.windowsKey), TextOrEmpty(w.nicNumber), TextOrEmpty(w.passcode))
  }

  /** Dates stored as date and time come back into the form as their date part. */
  lemma PrefillKeepsDatePart(w: Warranty, date: string, time: string)
    requires 'T' !in date && w.startDate == Some(date + "T" + time)
    ensures Prefill(w).startDate == date
  {
    BeforeTOfTimestamp(date, time);
  }

  /** The form is valid exactly when the serial number has a character other than whitespace. */
  predicate FormValid(d: FormData) {
    !Text.IsBlank(d.serialNumber)
  }

  /** The check is JavaScript's `!formData.serial_number.trim()`, negated. */
  lemma FormValidIffTrimmedNonEmpty(d: FormData)
    ensures FormValid(d) <==> Text.Trim(d.serialNumber) != ""
  {
    Text.TrimEmptyIffBlank(d.serialNumber);
  }

  datatype Verb = Post | Put

  /** A date as sent: empty, or the ISO-8601 text of the entered date (its computation is not modelled). */
  datatype SentDate = Blank | IsoOf(date: string)

  function SentDateOf(input: string): (s: SentDate)
    ensures s.Blank? <==> input == ""
    ensures s.IsoOf? ==> s.date == input
  {
    if input == "" then Blank else IsoOf(input)
  }

  datatype Body = Body(
    serialNumber: string, startDate: SentDate, endDate: SentDate,
    windowsKey: string, nicNumber: string, passcode: string)

  /** The request: method, path on the server, body. */
  datatype Request = Request(verb: Verb, path: string, body: Body)

  /** An existing record is updated in place; otherwise a new one is created. */
  function RequestFor(editing: Option<Warranty>, d: FormData): (r: Request)
    ensures r.verb == Put <==> editing.Some?
    ensures editing.Some? ==> r.path == "/api/warranties/" + editing.value.id
    ensures editing.None? ==> r.path == "/api/warranties"
    ensures r.body.serialNumber == d.serialNumber && r.body.windowsKey == d.windowsKey
    ensures r.body.nicNumber == d.nicNumber && r.body.passcode == d.passcode
    ensures r.body.startDate == SentDateOf(d.startDate) && r.body.endDate == SentDateOf(d.endDate)
  {
    var body := Body(d.serialNumber, SentDateOf(d.startDate), SentDateOf(d.endDate),
                     d.windowsKey, d.nicNumber, d.passcode);
    if editing.Some? then Request(Put, "/api/warranties/" + editing.value.id, body)
    else Request(Post, "/api/warranties", body)
  }

  /** Saving an unchanged edit form sends the record's own texts and the date parts of its dates. */
  lemma UnchangedEditResendsRecord(w: Warranty, date: string, time: string)
    requires date != "" && 'T' !in date && w.startDate == Some(date + "T" + time)
    ensures var r := RequestFor(Some(w), Prefill(w));
      r.verb == Put && r.body.serialNumber == w.serialNumber && r.body.startDate == IsoOf(date)
      && r.body.passcode == TextOrEmpty(w.passcode)
  {
    PrefillKeepsDatePart(w, date, time);
  }

  /** How the save request ended. */
  datatype SaveOutcome =
    | Saved                    // a reply with `success`
    | Refused(error: string)   // a reply without it; "" when it has no error text
    | Threw                    // the request failed or its body was not JSON

  class WarrantyDialog {
    const warranty: Option<Warranty>
    var formData: FormData
    var errors: map<FormField, string>
    var loading: bool
    var generalError: string

    /** The dialog as it appears once the record, if any, has been copied into the form. */
    constructor (warranty: Option<Warranty>)
      ensures this.warranty == warranty
      ensures formData == if warranty.Some? then Prefill(warranty.value) else EmptyForm()
      ensures errors == map[] && !loading && generalError == ""
    {
      this.warranty := warranty;
      formData := if warranty.Some? then Prefill(warranty.value) else EmptyForm();
      errors := map[];
      loading := false;
      generalError := "";
    }

    /** Typing into a field: only that field changes, its message is blanked if one is showing, the general error goes. */
    method HandleChange(field: FormField, value: string)
      modifies this`formData, this`errors, this`generalError
      ensures Get(formData, field) == value
      ensures forall g :: g != field ==> Get(formData, g) == Get(old(formData), g)
      ensures errors == if field in old(errors) && old(errors)[field] != ""
                        then old(errors)[field := ""] else old(errors)
      ensures generalError == ""
    {
      formData := Set(formData, field, value);
      if field in errors && errors[field] != "" {
        errors := errors[field := ""];
      }
      generalError := "";
    }

    /** Replaces the messages by those of a fresh check: at most the serial number's. */
    method Validate() returns (ok: bool)
      modifies this`errors
      ensures ok <==> FormValid(formData)
      ensures errors == if ok then map[] else map[SerialNumber := "Serial number is required"]
    {
      var newErrors: map<FormField, string> := map[];
      if Text.IsBlank(formData.serialNumber) {
        newErrors := newErrors[SerialNumber := "Serial number is required"];
      }
      errors := newErrors;
      ok := |newErrors| == 0;
    }

    /**
     * The submit button (disabled while saving): an invalid form stops before
     * any request and leaves `loading` as it was; a valid one starts saving and
     * returns the request.
     */
    method BeginSubmit() returns (request: Option<Request>)
      requires !loading
      modifies this`errors, this`loading, this`generalError
      ensures request.Some? <==> FormValid(formData)
      ensures request.None? ==> !loading && generalError == old(generalError)
      ensures request.Some? ==> loading && generalError == "" && request.value == RequestFor(warranty, formData)
      ensures errors == if request.Some? then map[] else map[SerialNumber := "Serial number is required"]
    {
      var ok := Validate();
      if !ok {
        return None;
      }
      loading := true;
      generalError := "";
      request := Some(RequestFor(warranty, formData));
    }

    /** The outcome of the save; `saved` says whether the dashboard's save handler runs. */
    method FinishSubmit(outcome: SaveOutcome) returns (saved: bool)
      requires loading
      modifies this`loading, this`generalError
      ensures !loading
      ensures saved <==> outcome.Saved?
      ensures outcome.Saved? ==> generalError == old(generalError)
      ensures outcome.Refused? && outcome.error != "" ==> generalError == outcome.error
      ensures outcome.Refused? && outcome.error == "" ==> generalError == "Failed to save warranty"
      ensures outcome.Threw? ==> generalError == "An error occurred. Please try again."
    {
      saved := false;
      match outcome {
        case Saved =>
          saved := true;
        case Refused(error) =>
          generalError := if error != "" then error else "Failed to save warranty";
        case Threw =>
          generalError := "An error occurred. Please try again.";
      }
      loading := false;
    }
  }
}
