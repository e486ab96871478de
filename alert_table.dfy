/**
 * The inputs the component hands to the table: the rows (`data || []`) and
 * the per-column filter values set by the three filter controls, each passed
 * through `value || undefined` so that an empty control clears its filter.
 * The matching and sorting themselves happen inside the table library.
 */
module AlertTable {
  import opened Wrappers
  import opened Frequency
  import opened AlertData
  import opened AlertCounts
  import opened AlertCharts

  /** `data || []`: the rows of the table; a missing array gives no rows. */
  function TableRows(data: Option<seq<Event>>): (rows: seq<Event>)
    ensures data.None? ==> rows == []
    ensures data.Some? ==> rows == data.value
  {
    match data
    case None => []
    case Some(events) => events
  }

  /** `value || undefined` for a text field: the empty string clears the filter. */
  function TextFilterValue(value: string): (r: Option<string>)
    ensures r.None? <==> value == ""
    ensures r.Some? ==> r.value == value
  {
    if value == "" then None else Some(value)
  }

  /** What the severity select reports: the "All" item's `""` or a menu item's number. */
  datatype SeverityChoice = All | Level(n: int)

  /** The items of the severity select, in menu order. */
  const SEVERITY_MENU: seq<SeverityChoice> := [All, Level(1), Level(2), Level(3), Level(4), Level(5)]

  /** `value || undefined` for the severity select: `""` and the falsy number `0` both clear the filter. */
  function SeverityFilterValue(choice: SeverityChoice): (r: Option<int>)
    ensures r.None? <==> (choice.All? || choice.n == 0)
    ensures r.Some? ==> r.value == choice.n
  {
    match choice
    case All => None
    case Level(n) => if n == 0 then None else Some(n)
  }

  /** The filter value of each column, `None` when the column is not filtered. */
  datatype Filters = Filters(srcIp: Option<string>, destIp: Option<string>, severity: Option<int>)

  /** The table's state before any control is touched: no column is filtered. */
  const NO_FILTERS := Filters(None, None, None)

  /** `setFilter('src_ip', e.target.value || undefined)` */
  function OnSourceIpChange(filters: Filters, value: string): (r: Filters)
    ensures r.srcIp.None? <==> value == ""
    ensures r.srcIp.Some? ==> r.srcIp.value == value
    ensures r.destIp == filters.destIp && r.severity == filters.severity
  {
    filters.(srcIp := TextFilterValue(value))
  }

  /** `setFilter('dest_ip', e.target.value || undefined)` */
  function OnDestinationIpChange(filters: Filters, value: string): (r: Filters)
    ensures r.destIp.None? <==> value == ""
    ensures r.destIp.Some? ==> r.destIp.value == value
    ensures r.srcIp == filters.srcIp && r.severity == filters.severity
  {
    filters.(destIp := TextFilterValue(value))
  }

  /** `setFilter('alert.severity', e.target.value || undefined)` */
  function OnSeverityChange(filters: Filters, choice: SeverityChoice): (r: Filters)
    ensures r.severity.None? <==> (choice.All? || choice.n == 0)
    ensures r.severity.Some? ==> r.severity.value == choice.n
    ensures r.srcIp == filters.srcIp && r.destIp == filters.destIp
  {
    filters.(severity := SeverityFilterValue(choice))
  }

  /** Emptying all three controls, in any state, leaves the table unfiltered again. */
  lemma ClearingAllControls(filters: Filters)
    ensures OnSeverityChange(OnDestinationIpChange(OnSourceIpChange(filters, ""), ""), All) == NO_FILTERS
  {
  }

  /** The text a cleared or set text filter came from: clearing loses nothing but the empty string. */
  lemma TextFilterRoundTrip(value: string)
    ensures (match TextFilterValue(value) case None => "" case Some(v) => v) == value
  {
  }

  /** Every item of the menu either clears the severity filter ("All") or sets it to that item's level. */
  lemma SeverityMenuChoices()
    ensures forall i | 0 <= i < |SEVERITY_MENU| ::
              SeverityFilterValue(SEVERITY_MENU[i]) == (if i == 0 then None else Some(i))
  {
  }

  /**
   * A null `data` leaves both count maps undefined; the charts then fall
   * back to `{}` and show nothing, and the table has no rows.
   */
  lemma NullData()
    ensures SignatureFrequencies(None) == None && SeverityFrequencies(None) == None
    ensures BarSeries(None, []) == Series([], []) && PieSeries(None, []) == Series([], [])
    ensures TableRows(None) == []
  {
  }

  /**
   * Every counted record is a table row: the counts of either chart never
   * add up to more than the rows, and every record stays a row whether it is
   * counted or not.
   */
  lemma CountsWithinRows(data: Option<seq<Event>>)
    ensures MapSum(OrEmpty(SignatureFrequencies(data))) <= |TableRows(data)|
    ensures MapSum(OrEmpty(SeverityFrequencies(data))) <= |TableRows(data)|
    ensures data.Some? ==> TableRows(data) == data.value
  {
    if data.Some? {
      FrequenciesTotal(SignatureKeys(data.value));
      FrequenciesTotal(Severities(data.value));
    }
  }
}
