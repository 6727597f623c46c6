/**
 * The administrators' warranty list: a status filter and a search box narrow
 * the list, four counters summarise it, and an add/edit dialog is opened and
 * closed from it. Authentication, the list request and logging out are I/O
 * and are not modelled; `FinishFetch` is the state change the list request
 * makes when it ends.
 */
module AdminDashboard {
  import opened Wrappers
  import opened WarrantyRecords
  import Seqs
  import Text

  /** The status filter keeps `w`: "All" keeps every record, any other value only records with that status. */
  predicate StatusKeeps(status: string, w: Warranty) {
    status == "All" || w.status == status
  }

  /**
   * The search box keeps `w`: an empty term keeps every record, any other term
   * records whose serial number, or whose NIC number when it has one,
   * contains the term ignoring case.
   */
  predicate SearchKeeps(term: string, w: Warranty) {
    term == ""
    || Text.ContainsIgnoreCase(w.serialNumber, term)
    || (w.nicNumber.Some? && w.nicNumber.value != "" && Text.ContainsIgnoreCase(w.nicNumber.value, term))
  }

  /** Both filters keep `w`. */
  predicate Keeps(status: string, term: string, w: Warranty) {
    StatusKeeps(status, w) && SearchKeeps(term, w)
  }

  /** The records the list shows, as one filter over the loaded records. */
  function Visible(ws: seq<Warranty>, status: string, term: string): (r: seq<Warranty>)
    ensures forall w :: w in r <==> w in ws && Keeps(status, term, w)
    ensures Seqs.IsSubsequence(r, ws)
  {
    Seqs.FilterIsSubsequence(ws, w => Keeps(status, term, w));
    Seqs.Filter(ws, w => Keeps(status, term, w))
  }

  /**
   * `filterWarranties`: starts from every record, narrows by status unless it
   * is "All", then by the search term unless it is empty.
   */
  method FilterWarranties(warranties: seq<Warranty>, status: string, term: string) returns (filtered: seq<Warranty>)
    ensures filtered == Visible(warranties, status, term)
  {
    filtered := warranties;
    if status != "All" {
      filtered := Seqs.Filter(filtered, (w: Warranty) => w.status == status);
    }
    if term != "" {
      filtered := Seqs.Filter(filtered, w => SearchKeeps(term, w));
    }
    if status != "All" && term != "" {
      Seqs.FilterThenFilter(warranties, (w: Warranty) => w.status == status, w => SearchKeeps(term, w),
                            w => Keeps(status, term, w));
    } else if status != "All" {
      Seqs.FilterCongruent(warranties, (w: Warranty) => w.status == status, w => Keeps(status, term, w));
    } else if term != "" {
      Seqs.FilterCongruent(warranties, w => SearchKeeps(term, w), w => Keeps(status, term, w));
    } else {
      Seqs.FilterAllPass(warranties, w => Keeps(status, term, w));
    }
  }

  /** With status "All" and an empty search every loaded record is shown, in order. */
  lemma AllStatusesShowsEverything(ws: seq<Warranty>)
    ensures Visible(ws, "All", "") == ws
  {
    Seqs.FilterAllPass(ws, w => Keeps("All", "", w));
  }

  /** Filtering the shown list again with the same settings shows the same list. */
  lemma FilterAgainChangesNothing(ws: seq<Warranty>, status: string, term: string)
    ensures Visible(Visible(ws, status, term), status, term) == Visible(ws, status, term)
  {
    Seqs.FilterIdempotent(ws, w => Keeps(status, term, w));
  }

  /** A status filter other than "All" shows only records whose status is exactly that value. */
  lemma StatusIsExact(ws: seq<Warranty>, status: string, term: string, w: Warranty)
    requires status != "All" && w in Visible(ws, status, term)
    ensures w.status == status
  {
  }

  /** A record is found by any part of its serial number, whatever its case. */
  lemma SerialPartFinds(ws: seq<Warranty>, w: Warranty, i: int, j: int)
    requires w in ws && 0 <= i < j <= |w.serialNumber|
    ensures w in Visible(ws, "All", w.serialNumber[i..j])
  {
    var t := w.serialNumber[i..j];
    Text.OccurrenceFoundIgnoringCase(w.serialNumber, t, i);
  }

  /** A record whose NIC number is absent is found only through its serial number. */
  lemma MissingNicSearchesSerialOnly(term: string, w: Warranty)
    requires w.nicNumber.None? && term != ""
    ensures SearchKeeps(term, w) <==> Text.ContainsIgnoreCase(w.serialNumber, term)
  {
  }

  /** The counters above the list. */
  datatype Stats = Stats(total: nat, active: nat, expired: nat, inactive: nat)

  function CountStatus(ws: seq<Warranty>, status: string): nat {
    Seqs.Count(ws, (w: Warranty) => w.status == status)
  }

  function ComputeStats(ws: seq<Warranty>): (s: Stats)
    ensures s.total == |ws|
    ensures s.active + s.expired + s.inactive <= s.total
    ensures s.active == CountStatus(ws, "Active") && s.expired == CountStatus(ws, "Expired")
    ensures s.inactive == CountStatus(ws, "Inactive")
  {
    Seqs.DisjointCountsBounded(ws, (w: Warranty) => w.status == "Active", (w: Warranty) => w.status == "Expired",
                               (w: Warranty) => w.status == "Inactive");
    Stats(|ws|, CountStatus(ws, "Active"), CountStatus(ws, "Expired"), CountStatus(ws, "Inactive"))
  }

  /** Choosing a status with an empty search shows as many records as that status's counter. */
  lemma CounterMatchesStatusFilter(ws: seq<Warranty>, status: string)
    requires status != "All"
    ensures |Visible(ws, status, "")| == CountStatus(ws, status)
  {
    Seqs.FilterCongruent(ws, w => Keeps(status, "", w), (w: Warranty) => w.status == status);
  }

  /** The badge classes of the three statuses, and of any other status. */
  const ActiveBadge: string := "bg-green-100 text-green-800 border-green-300"
  const ExpiredBadge: string := "bg-red-100 text-red-800 border-red-300"
  const InactiveBadge: string := "bg-yellow-100 text-yellow-800 border-yellow-300"
  const OtherBadge: string := "bg-gray-100 text-gray-800 border-gray-300"

  /** The badge classes of a status. */
  function StatusColor(status: string): (c: string)
    ensures status == "Active" ==> c == ActiveBadge
    ensures status == "Expired" ==> c == ExpiredBadge
    ensures status == "Inactive" ==> c == InactiveBadge
    ensures status != "Active" && status != "Expired" && status != "Inactive" ==> c == OtherBadge
  {
    match status
    case "Active" => ActiveBadge
    case "Expired" => ExpiredBadge
    case "Inactive" => InactiveBadge
    case _ => OtherBadge
  }

  /** The three statuses get three different badges, and only the other statuses get the grey one. */
  lemma StatusColorsDistinct(s: string)
    ensures StatusColor("Active") != StatusColor("Expired")
    ensures StatusColor("Active") != StatusColor("Inactive")
    ensures StatusColor("Expired") != StatusColor("Inactive")
    ensures StatusColor(s) == OtherBadge <==> s != "Active" && s != "Expired" && s != "Inactive"
  {
    assert ActiveBadge[3] == 'g' && ActiveBadge[5] == 'e';
    assert ExpiredBadge[3] == 'r' && InactiveBadge[3] == 'y';
    assert OtherBadge[3] == 'g' && OtherBadge[5] == 'a';
  }

  /** A date cell of the list: "N/A" for an absent or empty date, otherwise the date formatted (not modelled). */
  datatype DateCell = NotAvailable | Formatted(iso: string)

  function DateCellOf(x: Option<string>): (c: DateCell)
    ensures c.NotAvailable? <==> x.None? || x.value == ""
    ensures c.Formatted? ==> c.iso == x.value
  {
    if x.Some? && x.value != "" then Formatted(x.value) else NotAvailable
  }

  /** One row of the list. */
  datatype Row = Row(serialNumber: string, status: string, badge: string, start: DateCell, end: DateCell,
                     nicNumber: string, windowsKey: string)

  function RowOf(w: Warranty): (r: Row)
    ensures r.serialNumber == w.serialNumber && r.status == w.status && r.badge == StatusColor(w.status)
    ensures r.start == DateCellOf(w.startDate) && r.end == DateCellOf(w.endDate)
    ensures r.nicNumber == TextOrNA(w.nicNumber) && r.windowsKey == TextOrNA(w.windowsKey)
    ensures r.nicNumber != "" && r.windowsKey != ""
  {
    Row(w.serialNumber, w.status, StatusColor(w.status), DateCellOf(w.startDate), DateCellOf(w.endDate),
        TextOrNA(w.nicNumber), TextOrNA(w.windowsKey))
  }

  class Dashboard {
    var warranties: seq<Warranty>
    var filteredWarranties: seq<Warranty>
    var searchTerm: string
    var statusFilter: string
    var loading: bool
    var showModal: bool
    var editingWarranty: Option<Warranty>

    /** After every handler the shown list is the filtered list; a record is only being edited in an open dialog. */
    predicate Valid()
      reads this
    {
      filteredWarranties == Visible(warranties, statusFilter, searchTerm)
      && (editingWarranty.Some? ==> showModal)
    }

    function Counters(): Stats
      reads this
    {
      ComputeStats(warranties)
    }

    constructor ()
      ensures Valid() && warranties == [] && filteredWarranties == []
      ensures searchTerm == "" && statusFilter == "All" && loading && !showModal && editingWarranty == None
    {
      warranties, filteredWarranties := [], [];
      searchTerm, statusFilter := "", "All";
      loading, showModal, editingWarranty := true, false, None;
    }

    /**
     * The end of the list request: a successful reply replaces the records and
     * the list is refiltered; a failed one keeps them. Loading ends either way.
     */
    method FinishFetch(reply: Option<seq<Warranty>>)
      requires Valid()
      modifies this`warranties, this`filteredWarranties, this`loading
      ensures Valid() && !loading
      ensures warranties == if reply.Some? then reply.value else old(warranties)
      ensures reply.Some? ==> Counters().total == |reply.value|
    {
      if reply.Some? {
        warranties := reply.value;
        filteredWarranties := FilterWarranties(reply.value, statusFilter, searchTerm);
      }
      loading := false;
    }

    /** Typing in the search box; the list follows. */
    method SetSearchTerm(term: string)
      requires Valid()
      modifies this`searchTerm, this`filteredWarranties
      ensures Valid() && searchTerm == term
      ensures term == "" && statusFilter == "All" ==> filteredWarranties == warranties
    {
      searchTerm := term;
      filteredWarranties := FilterWarranties(warranties, statusFilter, term);
      if term == "" && statusFilter == "All" {
        AllStatusesShowsEverything(warranties);
      }
    }

    /** Choosing a status; the list follows. */
    method SetStatusFilter(status: string)
      requires Valid()
      modifies this`statusFilter, this`filteredWarranties
      ensures Valid() && statusFilter == status
      ensures status != "All" ==> forall w :: w in filteredWarranties ==> w.status == status
    {
      statusFilter := status;
      filteredWarranties := FilterWarranties(warranties, status, searchTerm);
    }

    /** "Add Warranty": an empty dialog. */
    method HandleAddWarranty()
      requires Valid()
      modifies this`showModal, this`editingWarranty
      ensures Valid() && showModal && editingWarranty == None
    {
      editingWarranty := None;
      showModal := true;
    }

    /** The edit button of a row: the dialog opens on that record. */
    method HandleEditWarranty(w: Warranty)
      requires Valid()
      modifies this`showModal, this`editingWarranty
      ensures Valid() && showModal && editingWarranty == Some(w)
    {
      editingWarranty := Some(w);
      showModal := true;
    }

    /** Closing the dialog without saving. */
    method HandleModalClose()
      requires Valid()
      modifies this`showModal, this`editingWarranty
      ensures Valid() && !showModal && editingWarranty == None
      ensures warranties == old(warranties)
    {
      showModal := false;
      editingWarranty := None;
    }

    /**
     * After a save: the dialog closes and the list is requested again; the
     * new list arrives through `FinishFetch`.
     */
    method HandleWarrantySaved()
      requires Valid()
      modifies this`showModal, this`editingWarranty
      ensures Valid() && !showModal && editingWarranty == None
    {
      showModal := false;
      editingWarranty := None;
    }
  }
}
