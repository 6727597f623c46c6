/**
 * A warranty record as the administration pages receive it from the server.
 * Fields the server may omit are optional; the serial number is always
 * present, since the dashboard reads it without a check.
 */
module WarrantyRecords {
  import opened Wrappers

  datatype Warranty = Warranty(
    id: string,                  // the server's `_id`
    serialNumber: string,
    startDate: Option<string>,   // ISO-8601 text
    endDate: Option<string>,
    windowsKey: Option<string>,
    nicNumber: Option<string>,
    passcode: Option<string>,
    status: string)              // computed by the server: "Active", "Expired" or "Inactive"

  /** JavaScript's `x || ''` on an optional text: absent and empty both give the empty string. */
  function TextOrEmpty(x: Option<string>): (r: string)
    ensures x.Some? ==> r == x.value
    ensures x.None? ==> r == ""
  {
    x.GetOr("")
  }

  /** JavaScript's `x || 'N/A'` on an optional text. */
  function TextOrNA(x: Option<string>): (r: string)
    ensures x.Some? && x.value != "" ==> r == x.value
    ensures x.None? || x.value == "" ==> r == "N/A"
  {
    if x.Some? && x.value != "" then x.value else "N/A"
  }
}
