/**
  The goals overview card: its fixed goal rows, the status filter, the two
  doughnut counts, the six-column spreadsheet export, the status cell's class,
  and the component state (rows, filter, loading flag, form visibility) with
  its refresh.
 */
module GoalsOverview {

  /** One goal as the table shows it. */
  datatype GoalRow = GoalRow(
    id: int,
    goalName: string,
    metricUnit: string,
    target: string,
    achievement: string,
    percent: string,
    status: string)

  const Achieved: string := "Achieved"
  const NotAchieved: string := "Not Achieved"
  const Active: string := "Active"

  /** The filter menu's entries, in order. */
  const FilterOptions: seq<string> := [Active, Achieved, NotAchieved]

  /** The goals the card starts with, and returns to on refresh. */
  const InitialRows: seq<GoalRow> := [
    GoalRow(1, "Hair Color Spends", "Spends", "5,00,000", "4,80,000", "96%", NotAchieved),
    GoalRow(2, "Hair Color ROAS", "ROAS", "3", "3.2", "106%", Achieved),
    GoalRow(3, "Account Spends", "Spends", "10,00,000", "9,50,000", "95%", NotAchieved),
    GoalRow(4, "Face Wash Goals", "Spends", "3,00,000", "3,20,000", "107%", Achieved),
    GoalRow(5, "Face Wash ROAS", "ROAS", "4", "2.5", "62%", NotAchieved)
  ]

  // ---------------------------------------------------------------------------
  // Filtering
  // ---------------------------------------------------------------------------

  /** Whether a row with `status` passes `filter`: "Active" takes both outcomes, any other filter its own status only. */
  predicate Keeps(filter: string, status: string)
    ensures Keeps(filter, status) ==> status == filter || filter == Active
    ensures status == filter && filter != Active ==> Keeps(filter, status)
  {
    if filter == Active then status == Achieved || status == NotAchieved
    else status == filter
  }

  /** `filteredRows`: the rows that pass, in their order. */
  function FilterRows(rows: seq<GoalRow>, filter: string): (kept: seq<GoalRow>)
    ensures |kept| <= |rows|
    ensures forall r :: r in kept <==> r in rows && Keeps(filter, r.status)
    ensures forall i :: 0 <= i < |kept| ==> Keeps(filter, kept[i].status)
    decreases |rows|
  {
    if rows == [] then []
    else
      var rest := FilterRows(rows[1..], filter);
      assert forall r :: r in rows <==> r == rows[0] || r in rows[1..];
      if Keeps(filter, rows[0].status) then [rows[0]] + rest else rest
  }

  /** Filtering works row by row: the rows of a concatenation are filtered part by part, so order is kept. */
  lemma {:induction false} FilterRowsAppend(a: seq<GoalRow>, b: seq<GoalRow>, filter: string)
    ensures FilterRows(a + b, filter) == FilterRows(a, filter) + FilterRows(b, filter)
    decreases |a|
  {
    if a == [] {
      assert a + b == b;
    } else {
      assert (a + b)[1..] == a[1..] + b;
      FilterRowsAppend(a[1..], b, filter);
    }
  }

  /** The rows that pass, as a multiset: the rows of the input whose status passes. */
  lemma {:induction false} FilterRowsMultiset(rows: seq<GoalRow>, filter: string)
    ensures forall r :: multiset(FilterRows(rows, filter))[r] == if Keeps(filter, r.status) then multiset(rows)[r] else 0
    decreases |rows|
  {
    if rows != [] {
      FilterRowsMultiset(rows[1..], filter);
      assert rows == [rows[0]] + rows[1..];
    }
  }

  /** Every status is one of the two outcomes. */
  predicate AllDecided(rows: seq<GoalRow>) {
    forall i :: 0 <= i < |rows| ==> rows[i].status == Achieved || rows[i].status == NotAchieved
  }

  /** When every status is one of the two outcomes, "Active" keeps every row. */
  lemma {:induction false} ActiveKeepsDecided(rows: seq<GoalRow>)
    requires AllDecided(rows)
    ensures FilterRows(rows, Active) == rows
    decreases |rows|
  {
    if rows != [] {
      assert AllDecided(rows[1..]);
      ActiveKeepsDecided(rows[1..]);
    }
  }

  /**
    "Achieved" and "Not Achieved" split what "Active" keeps: together, and
    with no row in both, they hold exactly its rows.
   */
  lemma ActivePartition(rows: seq<GoalRow>)
    ensures multiset(FilterRows(rows, Active))
         == multiset(FilterRows(rows, Achieved)) + multiset(FilterRows(rows, NotAchieved))
    ensures |FilterRows(rows, Active)| == |FilterRows(rows, Achieved)| + |FilterRows(rows, NotAchieved)|
    ensures forall r :: r in FilterRows(rows, Achieved) ==> r !in FilterRows(rows, NotAchieved)
  {
    FilterRowsMultiset(rows, Active);
    FilterRowsMultiset(rows, Achieved);
    FilterRowsMultiset(rows, NotAchieved);
    assert multiset(FilterRows(rows, Active))
        == multiset(FilterRows(rows, Achieved)) + multiset(FilterRows(rows, NotAchieved));
    assert |multiset(FilterRows(rows, Active))| == |FilterRows(rows, Active)|;
  }

  // ---------------------------------------------------------------------------
  // Chart
  // ---------------------------------------------------------------------------

  /** How many rows have exactly `status`. */
  function CountStatus(rows: seq<GoalRow>, status: string): (count: nat)
    ensures count <= |rows|
    ensures count == |FilterRows(rows, status)| || status == Active
    decreases |rows|
  {
    if rows == [] then 0
    else (if rows[0].status == status then 1 else 0) + CountStatus(rows[1..], status)
  }

  /** The doughnut's data: the shown rows that are achieved and those that are not. */
  function ChartCounts(filtered: seq<GoalRow>): (counts: (nat, nat))
    ensures counts.0 == |FilterRows(filtered, Achieved)|
    ensures counts.1 == |FilterRows(filtered, NotAchieved)|
  {
    (CountStatus(filtered, Achieved), CountStatus(filtered, NotAchieved))
  }

  /**
    For each menu entry the two counts add up to the rows shown: under
    "Active" every shown row has one of the two statuses, and under either
    status all shown rows fall in its slice.
   */
  lemma {:induction false} ChartCountsCoverShown(rows: seq<GoalRow>, filter: string)
    requires filter in FilterOptions
    ensures var counts := ChartCounts(FilterRows(rows, filter));
      counts.0 + counts.1 == |FilterRows(rows, filter)|
    ensures filter == Achieved ==> ChartCounts(FilterRows(rows, filter)).1 == 0
    ensures filter == NotAchieved ==> ChartCounts(FilterRows(rows, filter)).0 == 0
  {
    var shown := FilterRows(rows, filter);
    assert AllDecided(shown);
    ActiveKeepsDecided(shown);
    ActivePartition(shown);
    if filter == Achieved {
      assert FilterRows(shown, NotAchieved) == [] by {
        NoneKept(shown, NotAchieved);
      }
    } else if filter == NotAchieved {
      assert FilterRows(shown, Achieved) == [] by {
        NoneKept(shown, Achieved);
      }
    }
  }

  /** A filter that no row passes keeps nothing. */
  lemma {:induction false} NoneKept(rows: seq<GoalRow>, filter: string)
    requires forall i :: 0 <= i < |rows| ==> !Keeps(filter, rows[i].status)
    ensures FilterRows(rows, filter) == []
    decreases |rows|
  {
    if rows != [] {
      NoneKept(rows[1..], filter);
    }
  }

  /** The card first shows all five goals under "Active": two achieved, three not. */
  lemma InitialChart()
    ensures FilterRows(InitialRows, Active) == InitialRows
    ensures ChartCounts(FilterRows(InitialRows, Active)) == (2, 3)
  {
    assert AllDecided(InitialRows);
    ActiveKeepsDecided(InitialRows);
    InitialCounts();
  }

  /** Two of the initial goals are achieved and three are not. */
  lemma InitialCounts()
    ensures CountStatus(InitialRows, Achieved) == 2
    ensures CountStatus(InitialRows, NotAchieved) == 3
  {
    var s := InitialRows;
    assert Achieved != NotAchieved by {
      assert |Achieved| != |NotAchieved|;
    }
    assert s[4..][1..] == [];
    assert CountStatus(s[4..], Achieved) == 0 && CountStatus(s[4..], NotAchieved) == 1;
    assert s[3..][1..] == s[4..];
    assert CountStatus(s[3..], Achieved) == 1 && CountStatus(s[3..], NotAchieved) == 1;
    assert s[2..][1..] == s[3..];
    assert CountStatus(s[2..], Achieved) == 1 && CountStatus(s[2..], NotAchieved) == 2;
    assert s[1..][1..] == s[2..];
    assert CountStatus(s[1..], Achieved) == 2 && CountStatus(s[1..], NotAchieved) == 2;
  }

  // ---------------------------------------------------------------------------
  // Columns, status class and export
  // ---------------------------------------------------------------------------

  /** A table column: the row field it shows and its header. */
  datatype Column = Column(field: string, headerName: string)

  /** The table's columns, in order. */
  const Columns: seq<Column> := [
    Column("goalName", "GOAL NAME"),
    Column("metricUnit", "METRIC UNIT"),
    Column("target", "TARGET"),
    Column("achievement", "ACHIEVEMENT"),
    Column("percent", "% ACHIEVEMENT"),
    Column("status", "GOAL STATUS")
  ]

  /** The row's field named `field`, for the six shown fields. */
  function Field(row: GoalRow, field: string): string {
    if field == "goalName" then row.goalName
    else if field == "metricUnit" then row.metricUnit
    else if field == "target" then row.target
    else if field == "achievement" then row.achievement
    else if field == "percent" then row.percent
    else if field == "status" then row.status
    else ""
  }

  /** The class of a status cell. */
  function StatusClass(status: string): (cls: string)
    ensures cls == "status-achieved" <==> status == Achieved
    ensures cls == "status-achieved" || cls == "status-not"
  {
    if status == Achieved then "status-achieved" else "status-not"
  }

  /** One spreadsheet record: its keys and values, in column order. */
  type ExportRecord = seq<(string, string)>

  /** The export of one row: the six shown fields under their upper-case names. */
  function ExportRecordOf(row: GoalRow): ExportRecord {
    [("GOAL NAME", row.goalName),
     ("METRIC UNIT", row.metricUnit),
     ("TARGET", row.target),
     ("ACHIEVEMENT", row.achievement),
     ("% ACHIEVEMENT", row.percent),
     ("GOAL STATUS", row.status)]
  }

  /** `exportData`: one record per shown row, in order. */
  function ExportRows(filtered: seq<GoalRow>): (records: seq<ExportRecord>)
    ensures |records| == |filtered|
    ensures forall i :: 0 <= i < |filtered| ==> records[i] == ExportRecordOf(filtered[i])
  {
    seq(|filtered|, i requires 0 <= i < |filtered| => ExportRecordOf(filtered[i]))
  }

  /**
    Each exported record has exactly six entries, and entry `k` is the value
    of the table's `k`-th column under that column's header: the sheet has
    the table's columns, in the table's order.
   */
  lemma ExportFollowsColumns(row: GoalRow)
    ensures |ExportRecordOf(row)| == |Columns| == 6
    ensures forall k :: 0 <= k < |Columns| ==>
      ExportRecordOf(row)[k] == (Columns[k].headerName, Field(row, Columns[k].field))
  {
  }

  /** The goal a record describes, read back by its keys; the id is not exported. */
  function RowOfRecord(record: ExportRecord, id: int): GoalRow
    requires |record| == 6
  {
    GoalRow(id, record[0].1, record[1].1, record[2].1, record[3].1, record[4].1, record[5].1)
  }

  /** Nothing shown is lost in the export: every row but its id reads back from its record. */
  lemma ExportRoundTrip(filtered: seq<GoalRow>)
    ensures forall i :: 0 <= i < |filtered| ==>
      |ExportRows(filtered)[i]| == 6 && RowOfRecord(ExportRows(filtered)[i], filtered[i].id) == filtered[i]
  {
  }

  // ---------------------------------------------------------------------------
  // State
  // ---------------------------------------------------------------------------

  /** The card's state. */
  class GoalsOverviewState {
    var rows: seq<GoalRow>
    var filter: string
    var loading: bool
    var showAddGoal: bool

    /** What is shown for the current filter. */
    function FilteredRows(): seq<GoalRow>
      reads this
    {
      FilterRows(rows, filter)
    }

    /** The first render: the initial goals under "Active", not loading, the form hidden. */
    constructor()
      ensures rows == InitialRows && filter == Active && !loading && !showAddGoal
    {
      rows := InitialRows;
      filter := Active;
      loading := false;
      showAddGoal := false;
    }

    /** A filter menu entry was picked. */
    method SetFilter(status: string)
      modifies this
      ensures filter == status
      ensures rows == old(rows) && loading == old(loading) && showAddGoal == old(showAddGoal)
    {
      filter := status;
    }

    /** The refresh button: loading, with the filter back on "Active"; the rows are not yet replaced. */
    method StartRefresh()
      modifies this
      ensures loading && filter == Active
      ensures rows == old(rows) && showAddGoal == old(showAddGoal)
    {
      loading := true;
      filter := Active;
    }

    /** The refresh's timer firing: the initial goals are back and loading ends. */
    method FinishRefresh()
      modifies this
      ensures rows == InitialRows && !loading
      ensures filter == old(filter) && showAddGoal == old(showAddGoal)
    {
      rows := InitialRows;
      loading := false;
    }

    /**
      `handleRefresh` run to completion (the timer is not modelled): the
      initial goals under "Active", not loading, whatever the state was.
     */
    method Refresh()
      modifies this
      ensures rows == InitialRows && filter == Active && !loading
      ensures showAddGoal == old(showAddGoal)
      ensures FilteredRows() == InitialRows
    {
      StartRefresh();
      FinishRefresh();
      InitialChart();
    }

    /** The form's `onClose`. */
    method CloseAddGoal()
      modifies this
      ensures !showAddGoal
      ensures rows == old(rows) && filter == old(filter) && loading == old(loading)
    {
      showAddGoal := false;
    }
  }
}
