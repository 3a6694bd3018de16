/**
 * `parseIEXRows`: find the header row among the first rows of the sheet,
 * locate the columns by the words their headings contain, then turn every
 * later row into a data point, dropping empty lines, summary lines and
 * lines without a numeric price.
 */
module Parser {
  import opened Wrappers
  import opened Types
  import opened Host
  import opened Text

  /**
   * One spreadsheet cell as `sheet_to_json(..., { header: 1 })` hands it
   * over: text, a number, or nothing (`undefined`).
   */
  datatype Cell = Str(text: string) | Num(number: real) | Blank

  type Row = seq<Cell>

  /** `String(cell)`. */
  function CellString(conv: Conversions, c: Cell): string {
    match c
    case Str(s) => s
    case Num(x) => conv.numberToString(x)
    case Blank => "undefined"
  }

  /** `String(cell || '')`: the falsy cells (empty text, 0, undefined) read as the empty string. */
  function CellOrEmpty(conv: Conversions, c: Cell): (s: string)
    ensures c.Blank? ==> s == ""
    ensures c.Str? ==> s == c.text
  {
    match c
    case Str(s) => s
    case Num(x) => if x == 0.0 then "" else conv.numberToString(x)
    case Blank => ""
  }

  /** `row[idx]`: undefined outside the row, in particular for the index -1 of a missing column. */
  function CellAt(row: Row, idx: int): (c: Cell)
    ensures !(0 <= idx < |row|) ==> c == Blank
  {
    if 0 <= idx < |row| then row[idx] else Blank
  }

  /** `parseFloat(cell)`, which reads `String(cell)`; None for NaN. */
  function CellNumber(conv: Conversions, c: Cell): Option<real> {
    conv.parseFloat(CellString(conv, c))
  }

  /** `row.some(cell => String(cell).includes(key))`. */
  predicate RowHas(row: Row, key: string, conv: Conversions) {
    exists j :: 0 <= j < |row| && Contains(CellString(conv, row[j]), key)
  }

  /** The header test: some cell mentions "Date" and some cell mentions "MCP". */
  predicate IsHeader(row: Row, conv: Conversions) {
    RowHas(row, "Date", conv) && RowHas(row, "MCP", conv)
  }

  /** Only the first 20 rows are searched for the header. */
  const HeaderScanLimit: nat := 20

  function ScanLength(rawData: seq<Row>): (n: nat)
    ensures n <= |rawData| && n <= HeaderScanLimit
    ensures n == |rawData| || n == HeaderScanLimit
  {
    if HeaderScanLimit < |rawData| then HeaderScanLimit else |rawData|
  }

  /** The first header among the first `k` rows, if any. */
  function HeaderSearch(rawData: seq<Row>, conv: Conversions, k: nat): (r: Option<nat>)
    requires k <= |rawData|
    ensures r.Some? ==> r.value < k
  {
    if k == 0 then None
    else match HeaderSearch(rawData, conv, k - 1)
      case Some(i) => Some(i)
      case None => if IsHeader(rawData[k - 1], conv) then Some(k - 1) else None
  }

  /** The search finds the first header among the first `k` rows, and finds nothing only when there is none. */
  lemma {:induction false} HeaderSearchFirst(rawData: seq<Row>, conv: Conversions, k: nat)
    requires k <= |rawData|
    ensures var r := HeaderSearch(rawData, conv, k);
      && (r.Some? ==> IsHeader(rawData[r.value], conv) && forall j :: 0 <= j < r.value ==> !IsHeader(rawData[j], conv))
      && (r.None? ==> forall j :: 0 <= j < k ==> !IsHeader(rawData[j], conv))
  {
    if k > 0 {
      HeaderSearchFirst(rawData, conv, k - 1);
    }
  }

  /** Once found, the header stays found when the search looks further. */
  lemma {:induction false} HeaderSearchStable(rawData: seq<Row>, conv: Conversions, j: nat, k: nat)
    requires j <= k <= |rawData| && HeaderSearch(rawData, conv, j).Some?
    ensures HeaderSearch(rawData, conv, k) == HeaderSearch(rawData, conv, j)
    decreases k
  {
    if j < k {
      HeaderSearchStable(rawData, conv, j, k - 1);
    }
  }

  /** The row `parseIEXRows` takes as the header. */
  function HeaderRow(rawData: seq<Row>, conv: Conversions): Option<nat> {
    HeaderSearch(rawData, conv, ScanLength(rawData))
  }

  /** The header scan: `headerIndex` stays -1 unless a header turns up within the first 20 rows. */
  method FindHeader(rawData: seq<Row>, conv: Conversions) returns (headerIndex: int)
    ensures headerIndex == -1 <==> HeaderRow(rawData, conv).None?
    ensures headerIndex != -1 ==> HeaderRow(rawData, conv) == Some(headerIndex)
  {
    headerIndex := -1;
    var limit := if HeaderScanLimit < |rawData| then HeaderScanLimit else |rawData|;
    var i := 0;
    while i < limit
      invariant 0 <= i <= limit && limit == ScanLength(rawData)
      invariant HeaderSearch(rawData, conv, i).None?
      invariant headerIndex == -1
    {
      var row := rawData[i];
      if RowHas(row, "Date", conv) && RowHas(row, "MCP", conv) {
        headerIndex := i;
        HeaderSearchStable(rawData, conv, i + 1, limit);
        break;
      }
      i := i + 1;
    }
  }

  /** `headers.findIndex(h => String(h).includes(key))`: the first heading that mentions `key`, or -1. */
  function FindIndex(headers: Row, key: string, conv: Conversions): (r: int)
    ensures -1 <= r < |headers|
  {
    if headers == [] then -1
    else if Contains(CellString(conv, headers[0]), key) then 0
    else
      var r := FindIndex(headers[1..], key, conv);
      if r == -1 then -1 else r + 1
  }

  /** -1 exactly when no heading mentions `key`; otherwise the first heading that does. */
  lemma {:induction false} FindIndexFirst(headers: Row, key: string, conv: Conversions)
    ensures var r := FindIndex(headers, key, conv);
      && (r == -1 <==> forall j :: 0 <= j < |headers| ==> !Contains(CellString(conv, headers[j]), key))
      && (r >= 0 ==> Contains(CellString(conv, headers[r]), key)
                     && forall j :: 0 <= j < r ==> !Contains(CellString(conv, headers[j]), key))
  {
    if headers != [] && !Contains(CellString(conv, headers[0]), key) {
      FindIndexFirst(headers[1..], key, conv);
      assert forall j :: 1 <= j < |headers| ==> headers[j] == headers[1..][j - 1];
    }
  }

  /** The column of each field, -1 where no heading mentions it. */
  datatype Columns = Columns(date: int, time: int, purchase: int, sell: int, mcv: int, mcp: int)

  function ColumnsOf(headers: Row, conv: Conversions): Columns {
    Columns(FindIndex(headers, "Date", conv), FindIndex(headers, "Time Block", conv),
            FindIndex(headers, "Purchase", conv), FindIndex(headers, "Sell", conv),
            FindIndex(headers, "MCV", conv), FindIndex(headers, "MCP", conv))
  }

  /** In the header row found by the scan, the date and price columns are found. */
  lemma HeaderColumns(rawData: seq<Row>, conv: Conversions)
    requires HeaderRow(rawData, conv).Some?
    ensures var cols := ColumnsOf(rawData[HeaderRow(rawData, conv).value], conv);
      cols.date >= 0 && cols.mcp >= 0
  {
    HeaderSearchFirst(rawData, conv, ScanLength(rawData));
    var headers := rawData[HeaderRow(rawData, conv).value];
    FindIndexFirst(headers, "Date", conv);
    FindIndexFirst(headers, "MCP", conv);
    assert IsHeader(headers, conv);
    var d :| 0 <= d < |headers| && Contains(CellString(conv, headers[d]), "Date");
    var m :| 0 <= m < |headers| && Contains(CellString(conv, headers[m]), "MCP");
  }

  /** The labels of the summary lines at the foot of an export. */
  predicate IsSummaryOrEmpty(dateStr: string) {
    dateStr == "" || Contains(dateStr, "Total") || Contains(dateStr, "Max")
    || Contains(dateStr, "Min") || Contains(dateStr, "Avg")
  }

  /** `String(row[dateIdx] || '').trim()`. */
  function DateText(row: Row, cols: Columns, conv: Conversions): string {
    Trim(CellOrEmpty(conv, CellAt(row, cols.date)))
  }

  /** Entry `i` of `parts.map(Number)` as a destructuring reads it: undefined past the end. */
  function Component(parts: seq<string>, i: nat, conv: Conversions): Option<real> {
    if i < |parts| then conv.toNumber(parts[i]) else None
  }

  /**
   * December to February is winter, March to May spring, June to August
   * summer, and everything else, a month that is not a number included,
   * monsoon.
   */
  function SeasonOf(month: Option<real>): (s: Season)
    ensures month.None? ==> s == Monsoon
  {
    match month
    case None => Monsoon
    case Some(m) =>
      if m >= 12.0 || m <= 2.0 then Winter
      else if m >= 3.0 && m <= 5.0 then Spring
      else if m >= 6.0 && m <= 8.0 then Summer
      else Monsoon
  }

  /** The calendar months fall into the seasons three by three. */
  lemma SeasonOfMonth(m: int)
    requires 1 <= m <= 12
    ensures SeasonOf(Some(m as real)) == Winter <==> m == 12 || m == 1 || m == 2
    ensures SeasonOf(Some(m as real)) == Spring <==> 3 <= m <= 5
    ensures SeasonOf(Some(m as real)) == Summer <==> 6 <= m <= 8
    ensures SeasonOf(Some(m as real)) == Monsoon <==> 9 <= m <= 11
  {
  }

  /** 6-12 h morning, 12-18 h afternoon, 18-22 h evening, otherwise (a missing hour included) night. */
  function TimeOfDayOf(hours: Option<real>): (t: TimeOfDay)
    ensures t == Morning <==> hours.Some? && 6.0 <= hours.value < 12.0
    ensures t == Afternoon <==> hours.Some? && 12.0 <= hours.value < 18.0
    ensures t == Evening <==> hours.Some? && 18.0 <= hours.value < 22.0
    ensures t == Night <==> hours.None? || hours.value < 6.0 || hours.value >= 22.0
  {
    match hours
    case None => Night
    case Some(h) =>
      if h >= 6.0 && h < 12.0 then Morning
      else if h >= 12.0 && h < 18.0 then Afternoon
      else if h >= 18.0 && h < 22.0 then Evening
      else Night
  }

  /** `timeBlockStr.split('-')[0].trim().split(':')`: the hour and minute texts of the block's start. */
  function StartTimeParts(row: Row, cols: Columns, conv: Conversions): seq<string> {
    Split(Trim(Split(CellOrEmpty(conv, CellAt(row, cols.time)), '-')[0]), ':')
  }

  /**
   * The point built from a kept row whose trimmed date is `dateStr` and
   * whose price is `mcpValue`: it keeps that label and price, and its price
   * per kWh is a thousandth of it.
   */
  function PointOf(row: Row, cols: Columns, conv: Conversions, dateStr: string, mcpValue: real): (p: DataPoint)
    ensures p.date == dateStr && p.mcpMWh == mcpValue && p.mcpKWh * 1000.0 == mcpValue
  {
    var month := Component(Split(dateStr, '-'), 1, conv);
    var timeBlockStr := CellOrEmpty(conv, CellAt(row, cols.time));
    var timeParts := StartTimeParts(row, cols, conv);
    var hours := Component(timeParts, 0, conv);
    var minutes := Component(timeParts, 1, conv);
    var dayOfWeek := conv.weekdayOf(dateStr);
    DataPoint(dateStr, timeBlockStr,
              CellNumber(conv, CellAt(row, cols.purchase)).GetOr(0.0),
              CellNumber(conv, CellAt(row, cols.sell)).GetOr(0.0),
              CellNumber(conv, CellAt(row, cols.mcv)).GetOr(0.0),
              mcpValue, mcpValue / 1000.0,
              hours.GetOr(0.0), minutes.GetOr(0.0),
              dayOfWeek, dayOfWeek == Some(0) || dayOfWeek == Some(6),
              SeasonOf(month), TimeOfDayOf(hours))
  }

  /**
   * What one data row contributes: nothing for an empty or summary line or
   * a non-numeric price; a point carries the row's price.
   */
  function RowPoint(row: Row, cols: Columns, conv: Conversions): (r: Option<DataPoint>)
    ensures r.Some? ==> CellNumber(conv, CellAt(row, cols.mcp)) == Some(r.value.mcpMWh)
  {
    var dateStr := DateText(row, cols, conv);
    var mcpValue := CellNumber(conv, CellAt(row, cols.mcp));
    if IsSummaryOrEmpty(dateStr) || mcpValue.None? then None
    else Some(PointOf(row, cols, conv, dateStr, mcpValue.value))
  }

  /**
   * What every parsed point satisfies: its date is a trimmed, non-empty
   * label that names no summary line, its price per kWh is its price per
   * MWh over 1000, it is a weekend point exactly on a Sunday or Saturday,
   * and its time of day is the one its stored hour falls in.
   */
  predicate WellFormed(p: DataPoint) {
    && p.date != [] && !IsJsSpace(p.date[0]) && !IsJsSpace(p.date[|p.date| - 1])
    && !IsSummaryOrEmpty(p.date)
    && p.mcpKWh * 1000.0 == p.mcpMWh
    && (p.isWeekend <==> p.dayOfWeek == Some(0) || p.dayOfWeek == Some(6))
    && p.timeOfDay == TimeOfDayOf(Some(p.hour))
  }

  /** A point built from a trimmed label that names no summary line is well formed. */
  lemma PointOfWellFormed(row: Row, cols: Columns, conv: Conversions, dateStr: string, mcpValue: real)
    requires dateStr != [] && !IsJsSpace(dateStr[0]) && !IsJsSpace(dateStr[|dateStr| - 1])
    requires !IsSummaryOrEmpty(dateStr)
    ensures var p := PointOf(row, cols, conv, dateStr, mcpValue);
      WellFormed(p) && p.date == dateStr && p.mcpMWh == mcpValue
  {
    var p := PointOf(row, cols, conv, dateStr, mcpValue);
    var hours := Component(StartTimeParts(row, cols, conv), 0, conv);
    assert p.hour == hours.GetOr(0.0) && p.timeOfDay == TimeOfDayOf(hours);
  }

  /** A row yields a point exactly when its date is a real label and its price a number; the point is well formed. */
  lemma RowPointCases(row: Row, cols: Columns, conv: Conversions)
    ensures var dateStr := DateText(row, cols, conv);
      var mcpValue := CellNumber(conv, CellAt(row, cols.mcp));
      RowPoint(row, cols, conv).Some? <==> !IsSummaryOrEmpty(dateStr) && mcpValue.Some?
    ensures var p := RowPoint(row, cols, conv);
      p.Some? ==> WellFormed(p.value) && p.value.date == DateText(row, cols, conv)
                  && Some(p.value.mcpMWh) == CellNumber(conv, CellAt(row, cols.mcp))
  {
    var dateStr := DateText(row, cols, conv);
    var mcpValue := CellNumber(conv, CellAt(row, cols.mcp));
    TrimSlice(CellOrEmpty(conv, CellAt(row, cols.date)));
    if !IsSummaryOrEmpty(dateStr) && mcpValue.Some? {
      PointOfWellFormed(row, cols, conv, dateStr, mcpValue.value);
    }
  }

  /** A cell that is missing (a missing column included) or holds empty text. */
  predicate IsEmptyCell(c: Cell) {
    c == Blank || c == Str("")
  }

  /**
   * The `|| 0` defaults of a kept row: an empty purchase, sell or MCV cell
   * reads as 0, an hour or a minute that is not a number reads as 0 (the
   * hour then falls at night), and a row without a time block starts at
   * 00:00, at night.
   */
  lemma PointOfDefaults(row: Row, cols: Columns, conv: Conversions, dateStr: string, mcpValue: real)
    requires ValidConversions(conv)
    ensures var p := PointOf(row, cols, conv, dateStr, mcpValue);
      && (IsEmptyCell(CellAt(row, cols.purchase)) ==> p.purchaseBid == 0.0)
      && (IsEmptyCell(CellAt(row, cols.sell)) ==> p.sellBid == 0.0)
      && (IsEmptyCell(CellAt(row, cols.mcv)) ==> p.mcv == 0.0)
    ensures var p := PointOf(row, cols, conv, dateStr, mcpValue);
      var parts := StartTimeParts(row, cols, conv);
      && (Component(parts, 0, conv).None? ==> p.hour == 0.0 && p.timeOfDay == Night)
      && (Component(parts, 0, conv).Some? ==> p.hour == Component(parts, 0, conv).value)
      && (Component(parts, 1, conv).None? ==> p.minute == 0.0)
    ensures var p := PointOf(row, cols, conv, dateStr, mcpValue);
      IsEmptyCell(CellAt(row, cols.time)) ==> p.hour == 0.0 && p.minute == 0.0 && p.timeOfDay == Night
  {
    if IsEmptyCell(CellAt(row, cols.time)) {
      assert CellOrEmpty(conv, CellAt(row, cols.time)) == "";
      assert Split("", '-') == [""];
      assert Trim("") == "";
      assert StartTimeParts(row, cols, conv) == [""];
    }
  }

  /** A row whose price cell is missing or empty yields no point. */
  lemma RowPointSkipsEmptyPrice(row: Row, cols: Columns, conv: Conversions)
    requires ValidConversions(conv)
    requires IsEmptyCell(CellAt(row, cols.mcp))
    ensures RowPoint(row, cols, conv) == None
  {
    assert CellString(conv, CellAt(row, cols.mcp)) == "undefined" || CellString(conv, CellAt(row, cols.mcp)) == "";
  }

  /** The row step as one function value, for the loop and its lemmas to hold abstractly. */
  function RowFn(cols: Columns, conv: Conversions): Row -> Option<DataPoint> {
    row => RowPoint(row, cols, conv)
  }

  /** `f` is the row step for these columns: it agrees with `RowPoint` wherever that is applied. */
  ghost predicate DescribesRows(cols: Columns, conv: Conversions, f: Row -> Option<DataPoint>) {
    forall row {:trigger RowPoint(row, cols, conv)} :: f(row) == RowPoint(row, cols, conv)
  }

  /** The body of the row loop, its `continue` returning None: the point `RowPoint` gives. */
  method ParseRow(row: Row, cols: Columns, conv: Conversions, ghost f: Row -> Option<DataPoint>)
    returns (point: Option<DataPoint>)
    requires DescribesRows(cols, conv, f)
    ensures point == f(row)
  {
    var dateStr := Trim(CellOrEmpty(conv, CellAt(row, cols.date)));
    var mcpValue := conv.parseFloat(CellString(conv, CellAt(row, cols.mcp)));
    if dateStr == "" || Contains(dateStr, "Total") || Contains(dateStr, "Max")
       || Contains(dateStr, "Min") || Contains(dateStr, "Avg") || mcpValue.None? {
      assert RowPoint(row, cols, conv) == None;
      return None;
    }
    var month := Component(Split(dateStr, '-'), 1, conv);
    var timeBlockStr := CellOrEmpty(conv, CellAt(row, cols.time));
    var startTimeStr := Trim(Split(timeBlockStr, '-')[0]);
    var timeParts := Split(startTimeStr, ':');
    var hours := Component(timeParts, 0, conv);
    var minutes := Component(timeParts, 1, conv);
    var dayOfWeek := conv.weekdayOf(dateStr);
    var isWeekend := dayOfWeek == Some(0) || dayOfWeek == Some(6);

    var season: Season;
    if month.Some? && (month.value >= 12.0 || month.value <= 2.0) {
      season := Winter;
    } else if month.Some? && month.value >= 3.0 && month.value <= 5.0 {
      season := Spring;
    } else if month.Some? && month.value >= 6.0 && month.value <= 8.0 {
      season := Summer;
    } else {
      season := Monsoon;
    }

    var timeOfDay: TimeOfDay;
    if hours.Some? && hours.value >= 6.0 && hours.value < 12.0 {
      timeOfDay := Morning;
    } else if hours.Some? && hours.value >= 12.0 && hours.value < 18.0 {
      timeOfDay := Afternoon;
    } else if hours.Some? && hours.value >= 18.0 && hours.value < 22.0 {
      timeOfDay := Evening;
    } else {
      timeOfDay := Night;
    }

    assert season == SeasonOf(month);
    assert timeOfDay == TimeOfDayOf(hours);
    point := Some(DataPoint(dateStr, timeBlockStr,
                            conv.parseFloat(CellString(conv, CellAt(row, cols.purchase))).GetOr(0.0),
                            conv.parseFloat(CellString(conv, CellAt(row, cols.sell))).GetOr(0.0),
                            conv.parseFloat(CellString(conv, CellAt(row, cols.mcv))).GetOr(0.0),
                            mcpValue.value, mcpValue.value / 1000.0,
                            hours.GetOr(0.0), minutes.GetOr(0.0),
                            dayOfWeek, isWeekend, season, timeOfDay));
    assert timeParts == StartTimeParts(row, cols, conv);
    assert point == Some(PointOf(row, cols, conv, dateStr, mcpValue.value));
    assert point == RowPoint(row, cols, conv);
  }

  /** `xs` through `f`, keeping the values of the results that are present, in order. */
  function FilterMap<T, U>(xs: seq<T>, f: T -> Option<U>): (ys: seq<U>)
    ensures |ys| <= |xs|
  {
    if xs == [] then []
    else
      var last := f(xs[|xs| - 1]);
      FilterMap(xs[..|xs| - 1], f) + (if last.Some? then [last.value] else [])
  }

  /** Filtering works element by element: the result for a concatenation is the concatenation of the results. */
  lemma {:induction false} FilterMapAppend<T, U>(xs: seq<T>, ys: seq<T>, f: T -> Option<U>)
    ensures FilterMap(xs + ys, f) == FilterMap(xs, f) + FilterMap(ys, f)
    decreases |ys|
  {
    if ys != [] {
      var shorter := ys[..|ys| - 1];
      FilterMapAppend(xs, shorter, f);
      assert (xs + ys)[..|xs + ys| - 1] == xs + shorter;
      assert (xs + ys)[|xs + ys| - 1] == ys[|ys| - 1];
    } else {
      assert xs + ys == xs;
    }
  }

  /** The values kept are exactly the present results. */
  lemma {:induction false} FilterMapMembers<T, U>(xs: seq<T>, f: T -> Option<U>, y: U)
    ensures y in FilterMap(xs, f) <==> exists j :: 0 <= j < |xs| && f(xs[j]) == Some(y)
  {
    if xs != [] {
      var shorter := xs[..|xs| - 1];
      FilterMapMembers(shorter, f, y);
      if exists j :: 0 <= j < |xs| && f(xs[j]) == Some(y) {
        var j :| 0 <= j < |xs| && f(xs[j]) == Some(y);
        if j < |xs| - 1 {
          assert shorter[j] == xs[j];
        }
      }
    }
  }

  /** The points of the rows, in row order. */
  function ParsedPoints(rows: seq<Row>, cols: Columns, conv: Conversions): seq<DataPoint> {
    FilterMap(rows, RowFn(cols, conv))
  }

  /** Rows are parsed each on its own and in order: parsing two runs of rows concatenates their points. */
  lemma ParsedPointsAppend(rows1: seq<Row>, rows2: seq<Row>, cols: Columns, conv: Conversions)
    ensures ParsedPoints(rows1 + rows2, cols, conv) == ParsedPoints(rows1, cols, conv) + ParsedPoints(rows2, cols, conv)
  {
    FilterMapAppend(rows1, rows2, RowFn(cols, conv));
  }

  /** The parsed points are exactly the points of the rows that yield one. */
  lemma ParsedPointsMembers(rows: seq<Row>, cols: Columns, conv: Conversions, p: DataPoint)
    ensures p in ParsedPoints(rows, cols, conv)
            <==> exists j :: 0 <= j < |rows| && RowPoint(rows[j], cols, conv) == Some(p)
  {
    var f := RowFn(cols, conv);
    FilterMapMembers(rows, f, p);
    assert forall j :: 0 <= j < |rows| ==> f(rows[j]) == RowPoint(rows[j], cols, conv);
  }

  /** Every parsed point is well formed. */
  lemma ParsedPointsWellFormed(rows: seq<Row>, cols: Columns, conv: Conversions)
    ensures forall p :: p in ParsedPoints(rows, cols, conv) ==> WellFormed(p)
  {
    forall p | p in ParsedPoints(rows, cols, conv)
      ensures WellFormed(p)
    {
      ParsedPointsMembers(rows, cols, conv, p);
      var j :| 0 <= j < |rows| && RowPoint(rows[j], cols, conv) == Some(p);
      RowPointCases(rows[j], cols, conv);
    }
  }

  /** The row loop: a point is appended for every row that yields one. */
  method ParseRows(dataRows: seq<Row>, cols: Columns, conv: Conversions, ghost f: Row -> Option<DataPoint>)
    returns (parsed: seq<DataPoint>)
    requires DescribesRows(cols, conv, f)
    ensures parsed == FilterMap(dataRows, f)
  {
    parsed := [];
    var i := 0;
    while i < |dataRows|
      invariant 0 <= i <= |dataRows|
      invariant parsed == FilterMap(dataRows[..i], f)
    {
      var point := ParseRow(dataRows[i], cols, conv, f);
      if point.Some? {
        parsed := parsed + [point.value];
      }
      assert dataRows[..i + 1][..i] == dataRows[..i];
      i := i + 1;
    }
    assert dataRows[..i] == dataRows;
  }

  const HeaderMissing: string := "Could not find header row (Must contain \"Date\" and \"MCP\")"

  /**
   * The result of `parseIEXRows`: the error it throws, or the points of the
   * rows after the header.
   */
  function ParseIEX(rawData: seq<Row>, conv: Conversions): (r: Result<seq<DataPoint>>)
    ensures r.Err? ==> r.message == HeaderMissing
    ensures r.Ok? ==> HeaderRow(rawData, conv).Some?
  {
    match HeaderRow(rawData, conv)
    case None => Err(HeaderMissing)
    case Some(h) => Ok(ParsedPoints(rawData[h + 1..], ColumnsOf(rawData[h], conv), conv))
  }

  /** The parse fails, with the header message, exactly when none of the first 20 rows is a header. */
  lemma ParseIEXFails(rawData: seq<Row>, conv: Conversions)
    ensures ParseIEX(rawData, conv).Err?
            <==> forall j :: 0 <= j < ScanLength(rawData) ==> !IsHeader(rawData[j], conv)
    ensures ParseIEX(rawData, conv).Err? ==> ParseIEX(rawData, conv).message == HeaderMissing
  {
    HeaderSearchFirst(rawData, conv, ScanLength(rawData));
  }

  /** A successful parse yields at most one point per row after the header, every one well formed. */
  lemma ParseIEXPoints(rawData: seq<Row>, conv: Conversions)
    ensures var r := ParseIEX(rawData, conv);
      r.Ok? ==> && HeaderRow(rawData, conv).Some?
                && |r.value| < |rawData| - HeaderRow(rawData, conv).value
                && forall i :: 0 <= i < |r.value| ==> WellFormed(r.value[i])
  {
    match HeaderRow(rawData, conv)
    case None =>
    case Some(h) =>
      var rows := rawData[h + 1..];
      var cols := ColumnsOf(rawData[h], conv);
      ParsedPointsWellFormed(rows, cols, conv);
      var ps := ParsedPoints(rows, cols, conv);
      forall i | 0 <= i < |ps| ensures WellFormed(ps[i]) {
        assert ps[i] in ps;
      }
  }

  /** `parseIEXRows`, its `throw` returned as an error. */
  method ParseIEXRows(rawData: seq<Row>, conv: Conversions) returns (r: Result<seq<DataPoint>>)
    ensures r == ParseIEX(rawData, conv)
  {
    var headerIndex := FindHeader(rawData, conv);
    if headerIndex == -1 {
      return Err(HeaderMissing);
    }
    var headers := rawData[headerIndex];
    var dataRows := rawData[headerIndex + 1..];
    var cols := Columns(FindIndex(headers, "Date", conv), FindIndex(headers, "Time Block", conv),
                        FindIndex(headers, "Purchase", conv), FindIndex(headers, "Sell", conv),
                        FindIndex(headers, "MCV", conv), FindIndex(headers, "MCP", conv));
    var parsed := ParseRows(dataRows, cols, conv, RowFn(cols, conv));
    r := Ok(parsed);
  }

}
