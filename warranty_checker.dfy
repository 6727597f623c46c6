/**
 * The customer-facing warranty checker: the customer types a serial number,
 * the server says whether a warranty exists and whether it is protected by a
 * passcode, and after the right passcode the warranty's details are shown.
 *
 * Each of the two requests is split into the moment the button is pressed
 * (`BeginCheck`, `BeginVerify`) and the moment the reply arrives
 * (`FinishCheck`, `FinishVerify`); the reply is a parameter. The field
 * `pending` records which handler is awaiting its reply, and, for the check,
 * the serial number that handler captured when it started.
 */
module WarrantyLookup {
  import opened Wrappers
  import Text

  const MsPerDay: int := 1000 * 60 * 60 * 24

  /** Shown when the check request failed. */
  const CheckFailedMessage: string := "An error occurred while checking warranty. Please try again."

  /** Shown when the serial number is unknown. */
  const NotFoundMessage: string := "Serial number not found. Please check and try again."

  /** The start of the default message for a warranty that needs no passcode. */
  const NotActivePrefix: string := "Warranty is not active for serial number "

  /** Shown when the verify request failed. */
  const VerifyFailedMessage: string := "An error occurred while verifying passcode. Please try again."

  /** The default message for a refused passcode. */
  const InvalidPasscodeMessage: string := "Invalid passcode. Please try again."

  /**
   * A date field of the reply: absent or empty, JSON `null`, present but not a
   * date, or a point in time in milliseconds. `null` is falsy like an absent
   * date, but `new Date(null)` is the epoch, not an invalid date.
   */
  datatype DateField = Missing | Null | Unparsable | At(ms: int)

  /** What `formatDate` shows: "N/A", "Invalid Date", or the date in the US short format. */
  datatype DateText = NotAvailable | InvalidDate | ShortDate(ms: int)

  function FormatDate(d: DateField): (t: DateText)
    ensures t.NotAvailable? <==> d.Missing? || d.Null?
    ensures d.At? ==> t == ShortDate(d.ms)
  {
    match d
    case Missing => NotAvailable
    case Null => NotAvailable
    case Unparsable => InvalidDate
    case At(ms) => ShortDate(ms)
  }

  /**
   * `Math.ceil((end - today) / MsPerDay)`: the number of days until the end
   * date, rounded up; negative once it has passed. Dafny's division rounds
   * down for a positive divisor, so the ceiling is the negated floor of the
   * negated difference.
   */
  function CeilDays(endMs: int, todayMs: int): (r: int)
    ensures (r - 1) * MsPerDay < endMs - todayMs <= r * MsPerDay
  {
    var q := (todayMs - endMs) / MsPerDay;
    assert q * MsPerDay <= todayMs - endMs < q * MsPerDay + MsPerDay;
    -q
  }

  /**
   * The remaining days, or None where JavaScript computes NaN (an end date that
   * is absent, empty or not a date); a `null` end date counts from the epoch.
   */
  function RemainingDays(end: DateField, todayMs: int): (r: Option<int>)
    ensures r.Some? <==> end.At? || end.Null?
    ensures end.At? ==> r == Some(CeilDays(end.ms, todayMs))
    ensures end.Null? ==> r == Some(CeilDays(0, todayMs))
  {
    match end
    case At(ms) => Some(CeilDays(ms, todayMs))
    case Null => Some(CeilDays(0, todayMs))
    case _ => None
  }

  /**
   * A `null` end date shows "N/A" as the expiry, yet a day or more after the
   * epoch it is counted as long expired, not as NaN.
   */
  lemma NullEndDateLongExpired(todayMs: int)
    requires todayMs >= MsPerDay
    ensures FormatDate(Null).NotAvailable?
    ensures var r := RemainingDays(Null, todayMs);
      r.Some? && r.value < 0 && DaysDisplay(r).DaysSinceExpired? && DaysDisplay(r).daysAgo == Some(-r.value)
  {
    NonNegativeIffLessThanADayAgo(0, todayMs);
  }

  /** The days are counted as still to come exactly when the end is less than a whole day in the past. */
  lemma NonNegativeIffLessThanADayAgo(endMs: int, todayMs: int)
    ensures CeilDays(endMs, todayMs) >= 0 <==> endMs - todayMs > -MsPerDay
  {
    var r := CeilDays(endMs, todayMs);
    if r <= -1 {
      assert r * MsPerDay <= -MsPerDay;
    }
  }

  /** Exactly `n` whole days ahead counts as `n` days; one millisecond more counts as one day more. */
  lemma WholeDays(n: int, todayMs: int)
    ensures CeilDays(todayMs + n * MsPerDay, todayMs) == n
    ensures CeilDays(todayMs + n * MsPerDay + 1, todayMs) == n + 1
  {
    var r := CeilDays(todayMs + n * MsPerDay, todayMs);
    assert (r - 1) * MsPerDay < n * MsPerDay <= r * MsPerDay;
    var s := CeilDays(todayMs + n * MsPerDay + 1, todayMs);
    assert (s - 1) * MsPerDay < n * MsPerDay + 1 <= s * MsPerDay;
  }

  /** The "Days Until Expiry" or "Days Since Expired" line; None stands for NaN. */
  datatype DaysLine = DaysUntilExpiry(days: nat) | DaysSinceExpired(daysAgo: Option<nat>)

  function DaysDisplay(days: Option<int>): (l: DaysLine)
    ensures l.DaysUntilExpiry? <==> days.Some? && days.value >= 0
    ensures l.DaysUntilExpiry? ==> l.days == days.value
    ensures l.DaysSinceExpired? && days.Some? ==> l.daysAgo == Some(-days.value) && -days.value > 0
    ensures days.None? ==> l == DaysSinceExpired(None)
  {
    match days
    case None => DaysSinceExpired(None)
    case Some(n) => if n >= 0 then DaysUntilExpiry(n) else DaysSinceExpired(Some(-n))
  }

  /** The colour class of a status text in the result panel. */
  function StatusColor(status: string): (c: string)
    ensures status == "Active" ==> c == "text-green-600"
    ensures status == "Expired" ==> c == "text-orange-600"
    ensures status != "Active" && status != "Expired" ==> c == "text-gray-600"
  {
    if status == "Active" then "text-green-600"
    else if status == "Expired" then "text-orange-600"
    else "text-gray-600"
  }

  /** The heading above the passcode field: anything but "Active" is announced as expired. */
  function FoundBadge(status: string): (b: string)
    ensures b == "(Active)" <==> status == "Active"
    ensures b == "(Active)" || b == "(Expired)"
  {
    if status == "Active" then "(Active)" else "(Expired)"
  }

  /** The reply to the check request; absent flags are false and absent texts empty. */
  datatype CheckOutcome =
    | CheckReply(success: bool, found: bool, requiresPasscode: bool, status: string, message: string)
    | CheckThrew   // the request failed or its body was not JSON

  /** The warranty in a successful verify reply; absent texts are empty. */
  datatype WarrantyReply = WarrantyReply(
    serialNumber: string, windowsKey: string, startDate: DateField, endDate: DateField,
    status: string, nicNumber: string)

  datatype VerifyOutcome =
    | VerifyReply(success: bool, warranty: Option<WarrantyReply>, message: string)
    | VerifyThrew  // the request failed or its body was not JSON

  /** The details shown once the passcode is accepted. */
  datatype WarrantyResult = WarrantyResult(
    serialNumber: string, windowsKey: string, purchaseDate: DateText, warrantyExpiry: DateText,
    status: string, nicNumber: string, remainingDays: Option<int>, coverage: string)

  /** The result panel built from the reply's warranty on the day `todayMs`. */
  function ResultOf(w: WarrantyReply, todayMs: int): (r: WarrantyResult)
    ensures r.serialNumber == w.serialNumber && r.windowsKey == w.windowsKey
    ensures r.status == w.status && r.nicNumber == w.nicNumber
    ensures r.purchaseDate == FormatDate(w.startDate) && r.warrantyExpiry == FormatDate(w.endDate)
    ensures r.remainingDays == RemainingDays(w.endDate, todayMs)
    ensures r.coverage == "3-Year Premium Warranty"
  {
    WarrantyResult(w.serialNumber, w.windowsKey, FormatDate(w.startDate), FormatDate(w.endDate),
                   w.status, w.nicNumber, RemainingDays(w.endDate, todayMs), "3-Year Premium Warranty")
  }

  /** `a || b` on strings: the first unless it is empty. */
  function OrElse(a: string, b: string): (r: string)
    ensures a != "" ==> r == a
    ensures a == "" ==> r == b
  {
    if a != "" then a else b
  }

  /** The handler awaiting its reply, if any; the check remembers the serial number it started with. */
  datatype Pending = Idle | Checking(capturedSerial: string) | Verifying

  class WarrantyChecker {
    var serialNumber: string
    var isLoading: bool
    var warrantyResult: Option<WarrantyResult>
    var showPasscodeField: bool
    var passcode: string
    var error: string
    var warrantyStatus: string
    var pending: Pending

    /**
     * The spinner shows exactly while a reply is awaited; the passcode field and
     * the result panel are never shown together; no result is shown while a
     * reply is awaited.
     */
    predicate Valid()
      reads this
    {
      (isLoading <==> !pending.Idle?)
      && !(showPasscodeField && warrantyResult.Some?)
      && (isLoading ==> warrantyResult.None?)
    }

    constructor ()
      ensures Valid() && pending == Idle
      ensures serialNumber == "" && !isLoading && warrantyResult == None && !showPasscodeField
      ensures passcode == "" && error == "" && warrantyStatus == ""
    {
      serialNumber, isLoading, warrantyResult, showPasscodeField := "", false, None, false;
      passcode, error, warrantyStatus := "", "", "";
      pending := Idle;
    }

    /** The check button is enabled: at least three characters typed and nothing in flight. */
    predicate CanCheck()
      reads this
    {
      |serialNumber| >= 3 && !isLoading
    }

    /** The verify button is enabled: a passcode typed and nothing in flight. */
    predicate CanVerify()
      reads this
    {
      passcode != "" && !isLoading
    }

    /** Typing a serial number; the input is disabled while the passcode field is shown. */
    method SetSerialNumber(value: string)
      requires Valid() && !showPasscodeField
      modifies this`serialNumber
      ensures Valid() && serialNumber == value
      ensures CanCheck() <==> |value| >= 3 && !isLoading
    {
      serialNumber := value;
    }

    /** Typing a passcode into the shown passcode field. */
    method SetPasscode(value: string)
      requires Valid() && showPasscodeField
      modifies this`passcode
      ensures Valid() && passcode == value
      ensures CanVerify() <==> value != "" && !isLoading
    {
      passcode := value;
    }

    /** "Check Warranty Status": clears the previous outcome and sends the trimmed serial number. */
    method BeginCheck() returns (sent: string)
      requires Valid() && !showPasscodeField && CanCheck()
      modifies this`isLoading, this`error, this`warrantyResult, this`showPasscodeField, this`pending
      ensures Valid() && isLoading && pending == Checking(serialNumber)
      ensures error == "" && warrantyResult == None && !showPasscodeField
      ensures sent == Text.Trim(serialNumber)
    {
      isLoading := true;
      error := "";
      warrantyResult := None;
      showPasscodeField := false;
      pending := Checking(serialNumber);
      sent := Text.Trim(serialNumber);
    }

    /**
     * The check reply: a protected warranty opens the passcode field; an unknown
     * serial number and an unprotected warranty give their messages; a reply
     * that is a failure for a known, protected serial number changes nothing.
     */
    method FinishCheck(outcome: CheckOutcome)
      requires Valid() && pending.Checking?
      modifies this`isLoading, this`error, this`showPasscodeField, this`warrantyStatus, this`pending
      ensures Valid() && !isLoading && pending == Idle
      ensures outcome.CheckThrew? ==>
        error == CheckFailedMessage
        && showPasscodeField == old(showPasscodeField) && warrantyStatus == old(warrantyStatus)
      ensures outcome.CheckReply? && outcome.success && outcome.requiresPasscode ==>
        showPasscodeField && warrantyStatus == outcome.status && error == ""
      ensures outcome.CheckReply? && !(outcome.success && outcome.requiresPasscode) ==>
        showPasscodeField == old(showPasscodeField) && warrantyStatus == old(warrantyStatus)
      ensures outcome.CheckReply? && !(outcome.success && outcome.requiresPasscode) && !outcome.found ==>
        error == NotFoundMessage
      ensures outcome.CheckReply? && !(outcome.success && outcome.requiresPasscode) && outcome.found
              && !outcome.requiresPasscode ==>
        error == OrElse(outcome.message, NotActivePrefix + old(pending).capturedSerial)
      ensures outcome.CheckReply? && !outcome.success && outcome.found && outcome.requiresPasscode ==>
        error == old(error)
    {
      match outcome {
        case CheckThrew =>
          error := CheckFailedMessage;
        case CheckReply(success, found, requiresPasscode, status, message) =>
          if success && requiresPasscode {
            showPasscodeField := true;
            warrantyStatus := status;
            error := "";
          } else if !found {
            error := NotFoundMessage;
          } else if !requiresPasscode {
            error := OrElse(message, NotActivePrefix + pending.capturedSerial);
          }
      }
      isLoading := false;
      pending := Idle;
    }

    /** "Verify Passcode": sends the trimmed serial number and the passcode as typed. */
    method BeginVerify() returns (sentSerial: string, sentPasscode: string)
      requires Valid() && showPasscodeField && CanVerify()
      modifies this`isLoading, this`error, this`pending
      ensures Valid() && isLoading && pending == Verifying && error == ""
      ensures sentSerial == Text.Trim(serialNumber) && sentPasscode == passcode && sentPasscode != ""
    {
      isLoading := true;
      error := "";
      pending := Verifying;
      sentSerial, sentPasscode := Text.Trim(serialNumber), passcode;
    }

    /**
     * The verify reply on the day `todayMs`: an accepted passcode shows the
     * warranty and hides the passcode field; a refusal shows the server's
     * message or a default one; a reply claiming success without a warranty
     * fails while reading it and is reported like a failed request.
     */
    method FinishVerify(outcome: VerifyOutcome, todayMs: int)
      requires Valid() && pending.Verifying?
      modifies this`isLoading, this`error, this`warrantyResult, this`showPasscodeField, this`pending
      ensures Valid() && !isLoading && pending == Idle
      ensures outcome.VerifyReply? && outcome.success && outcome.warranty.Some? ==>
        warrantyResult == Some(ResultOf(outcome.warranty.value, todayMs)) && !showPasscodeField
        && error == old(error)
      ensures outcome.VerifyReply? && !outcome.success ==>
        error == OrElse(outcome.message, InvalidPasscodeMessage)
        && warrantyResult == None && showPasscodeField == old(showPasscodeField)
      ensures outcome.VerifyThrew? || (outcome.VerifyReply? && outcome.success && outcome.warranty.None?) ==>
        error == VerifyFailedMessage
        && warrantyResult == None && showPasscodeField == old(showPasscodeField)
    {
      match outcome {
        case VerifyThrew =>
          error := VerifyFailedMessage;
        case VerifyReply(success, warranty, message) =>
          if success {
            if warranty.Some? {
              warrantyResult := Some(ResultOf(warranty.value, todayMs));
              showPasscodeField := false;
            } else {
              error := VerifyFailedMessage;
            }
          } else {
            error := OrElse(message, InvalidPasscodeMessage);
          }
      }
      isLoading := false;
      pending := Idle;
    }

    /** "Cancel" beside the verify button, enabled even while a reply is awaited. */
    method Cancel()
      requires Valid() && showPasscodeField
      modifies this`showPasscodeField, this`passcode, this`error, this`warrantyStatus
      ensures Valid() && !showPasscodeField && passcode == "" && error == "" && warrantyStatus == ""
    {
      showPasscodeField := false;
      passcode := "";
      error := "";
      warrantyStatus := "";
    }
  }
}
