/** The analytics modal's overview metrics per role and the CSV text its export
    button builds from them (the file download itself is left out). */
module Analytics {
  import opened Text

  datatype Metric = Metric(title: string, value: string, change: string)

  const StudentOverview: seq<Metric> := [
    Metric("Quiz Completion", "85%", "+12%"),
    Metric("Time Spent", "2.5h", "+30min"),
    Metric("Recommendations Viewed", "24", "+8"),
    Metric("Career Paths Explored", "6", "+2")]

  const ParentOverview: seq<Metric> := [
    Metric("Child's Progress", "78%", "+15%"),
    Metric("Resources Accessed", "18", "+5"),
    Metric("Comparisons Made", "12", "+3"),
    Metric("Time on Platform", "1.8h", "+25min")]

  const GovernmentOverview: seq<Metric> := [
    Metric("Total Students", "45,230", "+1,250"),
    Metric("Active Colleges", "156", "+3"),
    Metric("Enrollment Rate", "87%", "+5%"),
    Metric("Platform Usage", "92%", "+8%")]

  /** The `overview` part of `getAnalyticsData` (the chart series are left out). */
  function Overview(userRole: string): seq<Metric> {
    if userRole == "student" then StudentOverview
    else if userRole == "parent" then ParentOverview
    else if userRole == "government" then GovernmentOverview
    else []
  }

  /** Each of the three roles has four metrics; any other role has none. */
  lemma OverviewSizes(userRole: string)
    ensures userRole in ["student", "parent", "government"] ==> |Overview(userRole)| == 4
    ensures userRole !in ["student", "parent", "government"] ==> Overview(userRole) == []
  {
  }

  /** `[item.title, item.value, item.change]`. */
  function Cells(m: Metric): seq<string> {
    [m.title, m.value, m.change]
  }

  const HeaderCells: seq<string> := ["Metric", "Value", "Change"]

  /** `csvData`: the header row, then one row per metric in order. */
  function CsvRows(overview: seq<Metric>): (rows: seq<seq<string>>)
    ensures |rows| == |overview| + 1 && rows[0] == HeaderCells
    ensures forall i :: 0 <= i < |overview| ==> rows[i + 1] == Cells(overview[i])
  {
    [HeaderCells] + seq(|overview|, i requires 0 <= i < |overview| => Cells(overview[i]))
  }

  /** Each row joined with "," and no quoting. */
  function CsvLines(rows: seq<seq<string>>): (lines: seq<string>)
    ensures |lines| == |rows|
    ensures forall i :: 0 <= i < |rows| ==> lines[i] == Join(rows[i], ",")
  {
    seq(|rows|, i requires 0 <= i < |rows| => Join(rows[i], ","))
  }

  /** `csvContent`: the lines joined with "\n", with no newline at the end. */
  function CsvContent(overview: seq<Metric>): string {
    Join(CsvLines(CsvRows(overview)), "\n")
  }

  predicate Free(s: string, c: char) {
    c !in s
  }

  /** No cell of any metric holds the character `c`. */
  predicate CellsFree(overview: seq<Metric>, c: char) {
    forall i :: 0 <= i < |overview| ==>
      Free(overview[i].title, c) && Free(overview[i].value, c) && Free(overview[i].change, c)
  }

  /** A character other than the comma that no cell holds is not in the line. */
  lemma LineFree(row: seq<string>, c: char)
    requires c != ','
    requires forall k :: 0 <= k < |row| ==> c !in row[k]
    ensures c !in Join(row, ",")
  {
    if c in Join(row, ",") {
      JoinChars(row, ",", c);
    }
  }

  /** Splitting the CSV text at newlines gives back one line per row, header
      first, as long as no cell holds a newline. */
  lemma CsvSplitsIntoLines(overview: seq<Metric>)
    requires CellsFree(overview, '\n')
    ensures Split(CsvContent(overview), '\n') == CsvLines(CsvRows(overview))
    ensures |Split(CsvContent(overview), '\n')| == |overview| + 1
    ensures Split(CsvContent(overview), '\n')[0] == "Metric,Value,Change"
  {
    var rows := CsvRows(overview);
    var lines := CsvLines(rows);
    forall k | 0 <= k < |lines| ensures '\n' !in lines[k] {
      if k == 0 {
        HeaderLine();
      } else {
        var m := overview[k - 1];
        assert rows[k] == [m.title, m.value, m.change];
        LineFree(rows[k], '\n');
      }
    }
    SplitJoin(lines, '\n');
    HeaderLine();
  }

  lemma HeaderLine()
    ensures Join(HeaderCells, ",") == "Metric,Value,Change"
    ensures '\n' !in Join(HeaderCells, ",")
  {
    assert HeaderCells[1..][1..] == ["Change"];
  }

  /** When no cell holds a comma, splitting a data line at commas gives back
      the title, value and change. */
  lemma LineSplitsIntoCells(m: Metric)
    requires Free(m.title, ',') && Free(m.value, ',') && Free(m.change, ',')
    ensures Split(Join(Cells(m), ","), ',') == [m.title, m.value, m.change]
  {
    SplitJoin(Cells(m), ',');
  }

  /** Cells are not quoted, so a data line has three fields plus one for
      every comma inside a cell. */
  lemma LineFieldCount(m: Metric)
    ensures |Split(Join(Cells(m), ","), ',')| ==
              3 + multiset(m.title)[','] + multiset(m.value)[','] + multiset(m.change)[',']
  {
    var line := Join(Cells(m), ",");
    var tail := Cells(m)[1..];
    assert tail[1..] == [m.change];
    assert Join(tail, ",") == m.value + "," + m.change;
    assert line == m.title + "," + (m.value + "," + m.change);
    SplitCount(line, ',');
  }

  /** Cells are not quoted: the government's first data line carries the
      thousands separators of "45,230" and "+1,250", so it reads back as five
      fields rather than three. */
  lemma ThousandsSeparatorsSplitCells(m: Metric)
    requires m == GovernmentOverview[0]
    ensures Split(Join(Cells(m), ","), ',') == [m.title, "45", "230", "+1", "250"]
  {
    GovernmentFirstMetric();
    assert ',' !in "Total Students" && ',' !in "45" && ',' !in "230" && ',' !in "+1" && ',' !in "250";
    SplitInnerCommas(m, "45", "230", "+1", "250");
  }

  lemma GovernmentFirstMetric()
    ensures GovernmentOverview[0] == Metric("Total Students", "45" + [','] + "230", "+1" + [','] + "250")
  {
  }

  /** A value and a change holding one comma each split into two fields each. */
  lemma SplitInnerCommas(m: Metric, v1: string, v2: string, c1: string, c2: string)
    requires m.value == v1 + [','] + v2 && m.change == c1 + [','] + c2
    requires ',' !in m.title && ',' !in v1 && ',' !in v2 && ',' !in c1 && ',' !in c2
    ensures Split(Join(Cells(m), ","), ',') == [m.title, v1, v2, c1, c2]
  {
    var tail := Cells(m)[1..];
    assert tail[1..] == [m.change];
    assert Join(tail, ",") == m.value + "," + m.change;
    assert Join(Cells(m), ",") == m.title + "," + (m.value + "," + m.change);
    assert Join(Cells(m), ",") == m.title + [','] + (v1 + [','] + (v2 + [','] + (c1 + [','] + c2)));
    SplitNoSep(c2, ',');
    SplitAtFirst(c1, c2, ',');
    SplitAtFirst(v2, c1 + [','] + c2, ',');
    SplitAtFirst(v1, v2 + [','] + (c1 + [','] + c2), ',');
    SplitAtFirst(m.title, v1 + [','] + (v2 + [','] + (c1 + [','] + c2)), ',');
  }

  /** A role without metrics exports the header line alone. */
  lemma UnknownRoleExportsHeader(userRole: string)
    requires userRole != "student" && userRole != "parent" && userRole != "government"
    ensures CsvContent(Overview(userRole)) == "Metric,Value,Change"
  {
    HeaderLine();
    assert CsvLines(CsvRows([])) == [Join(HeaderCells, ",")];
  }
}
