/** The live telemetry window of a recording: the log is read as CSV, its
    columns are renamed `V0`, `V1`, ..., a time column `t` is added (row `i`
    at `i` hundredths of a second), and the rows `[-1000:-20]` are returned as
    records.  Parsing text into fields is not modelled: the log arrives as its
    non-blank lines, already cut into fields. */
module Telemetry {
  import opened Text
  import opened Wrappers

  /** Slice bounds of the window, `df[-1000:-20]`. */
  const WindowStart: int := -1000
  const WindowStop: int := -20

  /** Name of the time column. */
  const TimeColumn: string := "t"

  /** A table cell: a parsed field, the padding of a short row, or a time stamp
      in hundredths of a second. */
  datatype Cell<V> = Field(value: V) | Missing | Time(hundredths: nat)

  /** A parsed CSV file: the number of columns and the data rows. */
  datatype Table<V> = Table(width: nat, rows: seq<seq<Cell<V>>>)

  /** One row of the answer: column name to cell. */
  type Record<V> = map<string, Cell<V>>

  /** Every row has one cell per column and no time stamps. */
  ghost predicate Rectangular<V>(t: Table<V>) {
    forall i :: 0 <= i < |t.rows| ==> |t.rows[i]| == t.width && forall c :: 0 <= c < t.width ==> !t.rows[i][c].Time?
  }

  /** A data line as a row of `width` cells: its fields, then `Missing` padding. */
  function PadRow<V>(line: seq<V>, width: nat): (row: seq<Cell<V>>)
    requires |line| <= width
    ensures |row| == width
    ensures forall c :: 0 <= c < |line| ==> row[c] == Field(line[c])
    ensures forall c :: |line| <= c < width ==> row[c] == Missing
  {
    seq(width, c requires 0 <= c < width => if c < |line| then Field(line[c]) else Missing)
  }

  /** The leading fields `pd.read_csv` takes as the index: when the first data
      line has more fields than the header, the surplus leading fields of
      every line form the index and the header names the fields after them. */
  function IndexColumns<V>(lines: seq<seq<V>>): (k: nat)
    requires |lines| > 0
    ensures k > 0 <==> |lines| > 1 && |lines[1]| > |lines[0]|
    ensures k > 0 ==> |lines[1]| == k + |lines[0]|
  {
    if |lines| > 1 && |lines[1]| > |lines[0]| then |lines[1]| - |lines[0]| else 0
  }

  /** A data line as a row of the frame: the line padded to its full length,
      then the `index` leading cells dropped. */
  function DataRow<V>(line: seq<V>, index: nat, width: nat): (row: seq<Cell<V>>)
    requires |line| <= index + width
    ensures |row| == width
    ensures forall c :: 0 <= c < width ==> row[c] == if index + c < |line| then Field(line[index + c]) else Missing
  {
    PadRow(line, index + width)[index..]
  }

  /** `pd.read_csv` on a log given as its non-blank lines: the first line is the
      header and sets the number of columns; a first data line longer than the
      header makes its surplus leading fields the index; a file without lines
      or without columns, or a line longer than header and index together,
      fails; shorter lines are padded. */
  function ReadCsv<V>(lines: seq<seq<V>>): (r: Option<Table<V>>)
    ensures r.Some? <==> && |lines| > 0 && |lines[0]| > 0
                         && forall i :: 1 <= i < |lines| ==> |lines[i]| <= |lines[0]| + IndexColumns(lines)
    ensures r.Some? ==> r.value.width == |lines[0]| && |r.value.rows| == |lines| - 1
  {
    if |lines| == 0 || |lines[0]| == 0 then None
    else
      var width, index := |lines[0]|, IndexColumns(lines);
      if exists i :: 1 <= i < |lines| && |lines[i]| > width + index then None
      else Some(Table(width, seq(|lines| - 1, i requires 0 <= i < |lines| - 1 => DataRow(lines[i + 1], index, width))))
  }

  /** Each data line becomes one row: its fields after the index, in order,
      padded to the header's width; no row carries a time stamp. */
  lemma ReadCsvRows<V>(lines: seq<seq<V>>)
    requires ReadCsv(lines).Some?
    ensures var t := ReadCsv(lines).value;
      && Rectangular(t)
      && forall i :: 0 <= i < |t.rows| ==> t.rows[i] == DataRow(lines[i + 1], IndexColumns(lines), t.width)
  {
  }

  /** A log whose first line was cut short when the port was opened mid-line
      still parses: the longer first data line makes its first field the index,
      and the header's width of fields after it are the data. */
  lemma TornFirstLineParses()
    ensures ReadCsv([["2", "3"], ["1", "2", "3"], ["4", "5", "6"]])
         == Some(Table(2, [[Field("2"), Field("3")], [Field("5"), Field("6")]]))
  {
    var lines := [["2", "3"], ["1", "2", "3"], ["4", "5", "6"]];
    assert IndexColumns(lines) == 1;
    assert forall i :: 1 <= i < |lines| ==> |lines[i]| == 3;
    var t := ReadCsv(lines).value;
    assert t.width == 2 && |t.rows| == 2;
    assert t.rows[0] == DataRow(lines[1], 1, 2) == [Field("2"), Field("3")];
    assert t.rows[1] == DataRow(lines[2], 1, 2) == [Field("5"), Field("6")];
    assert t.rows == [t.rows[0], t.rows[1]];
  }

  /** `'V{}'.format(c)`: the name given to column `c`. */
  function ColumnName(c: nat): string {
    "V" + Decimal(c)
  }

  /** Different columns get different names, and none is the time column. */
  lemma ColumnNamesDistinct()
    ensures forall c, d :: ColumnName(c) == ColumnName(d) ==> c == d
    ensures forall c :: ColumnName(c) != TimeColumn
  {
    forall c, d | ColumnName(c) == ColumnName(d)
      ensures c == d
    {
      assert Decimal(c) == ColumnName(c)[1..] == ColumnName(d)[1..] == Decimal(d);
      DecimalInjective(c, d);
    }
    forall c
      ensures ColumnName(c) != TimeColumn
    {
      assert |ColumnName(c)| >= 2;
    }
  }

  /** Row `i` of the renamed frame with its time column. */
  function RecordOf<V>(row: seq<Cell<V>>, i: nat): Record<V> {
    ColumnNamesDistinct();
    (map c | 0 <= c < |row| :: ColumnName(c) := row[c])[TimeColumn := Time(i)]
  }

  /** The whole renamed frame, each row stamped with its position. */
  function Frame<V>(t: Table<V>): (f: seq<Record<V>>)
    ensures |f| == |t.rows|
  {
    seq(|t.rows|, i requires 0 <= i < |t.rows| => RecordOf(t.rows[i], i))
  }

  /** CPython's adjustment of a slice bound (step 1) to a sequence of length `n`:
      a negative bound counts from the end, and both are clamped to `[0, n]`. */
  function SliceBound(k: int, n: nat): (r: nat)
    ensures r <= n
  {
    if k < 0 then (if n + k < 0 then 0 else n + k) else if k > n then n else k
  }

  /** Python `s[start:stop]`. */
  function PySlice<T>(s: seq<T>, start: int, stop: int): (r: seq<T>)
    ensures var lo, hi := SliceBound(start, |s|), SliceBound(stop, |s|);
      && |r| == Max0(hi - lo)
      && forall k :: 0 <= k < |r| ==> r[k] == s[lo + k]
  {
    var lo, hi := SliceBound(start, |s|), SliceBound(stop, |s|);
    if lo < hi then s[lo..hi] else []
  }

  function Max0(x: int): nat {
    if x < 0 then 0 else x
  }

  /** `s[-1000:-20]` keeps the rows from `max(0, n-1000)` up to, not including,
      `max(0, n-20)`: at most 980 rows, none of the last 20, and nothing at all
      when there are 20 rows or fewer. */
  lemma WindowBounds<T>(s: seq<T>)
    ensures Max0(|s| - 1000) <= Max0(|s| - 20) <= |s|
    ensures PySlice(s, WindowStart, WindowStop) == s[Max0(|s| - 1000)..Max0(|s| - 20)]
    ensures |PySlice(s, WindowStart, WindowStop)| <= 980
    ensures PySlice(s, WindowStart, WindowStop) == [] <==> |s| <= 20
    ensures |s| >= 1000 ==> |PySlice(s, WindowStart, WindowStop)| == 980
  {
  }

  /** How pandas' type inference reads a field of the index: an integer
      literal, a floating-point literal, a missing value (an empty field or a
      marker such as `NaN`), or anything else. */
  datatype Literal = IntLiteral(i: int) | FloatLiteral(x: real) | NaLiteral | TextLiteral

  /** How `df[-1000:-20]` picks its rows: by position, or, on an index of
      float dtype, by label (`None` standing for a NaN label). */
  datatype RowIndex = Positional | FloatLabels(labels: seq<Option<real>>)

  /** The index field of a data line, as inferred. */
  function IndexLiteral<V>(line: seq<V>, classify: V -> Literal): Literal {
    if |line| == 0 then NaLiteral else classify(line[0])
  }

  /** The label a literal gives in a float index. */
  function LabelOf(l: Literal): (r: Option<real>)
    ensures r.Some? <==> l.IntLiteral? || l.FloatLiteral?
  {
    match l
    case IntLiteral(i) => Some(i as real)
    case FloatLiteral(x) => Some(x)
    case _ => None
  }

  /** A value that makes a column of numbers a float column. */
  predicate FloatOrMissing(l: Literal) {
    l.FloatLiteral? || l.NaLiteral?
  }

  /** The index has float dtype when it is a single column whose fields are
      all numbers or missing, at least one of them a float or missing (a
      column of integers alone is an integer index); no index, an integer
      or text index, or several index columns are sliced by position. */
  function RowIndexOf<V>(lines: seq<seq<V>>, classify: V -> Literal): (ix: RowIndex)
    requires |lines| > 0
    ensures ix.FloatLabels? <==>
      && IndexColumns(lines) == 1
      && (forall i :: 1 <= i < |lines| ==> !IndexLiteral(lines[i], classify).TextLiteral?)
      && (exists i :: 1 <= i < |lines| && FloatOrMissing(IndexLiteral(lines[i], classify)))
    ensures ix.FloatLabels? ==>
      && |ix.labels| == |lines| - 1
      && forall i :: 0 <= i < |ix.labels| ==> ix.labels[i] == LabelOf(IndexLiteral(lines[i + 1], classify))
  {
    if && IndexColumns(lines) == 1
       && (forall i :: 1 <= i < |lines| ==> !IndexLiteral(lines[i], classify).TextLiteral?)
       && (exists i :: 1 <= i < |lines| && FloatOrMissing(IndexLiteral(lines[i], classify)))
    then FloatLabels(seq(|lines| - 1, i requires 0 <= i < |lines| - 1 => LabelOf(IndexLiteral(lines[i + 1], classify))))
    else Positional
  }
  /** The slice bounds as labels of a float index. */
  const LowLabel: real := -1000.0
  const HighLabel: real := -20.0

  /** pandas' `is_monotonic_increasing`: no NaN, and no label above a later one. */
  predicate Ascending(labels: seq<Option<real>>) {
    && (forall i :: 0 <= i < |labels| ==> labels[i].Some?)
    && forall i, j :: 0 <= i < j < |labels| ==> labels[i].value <= labels[j].value
  }

  /** pandas' `is_monotonic_decreasing`: no NaN, and no label below a later one. */
  predicate Descending(labels: seq<Option<real>>) {
    && (forall i :: 0 <= i < |labels| ==> labels[i].Some?)
    && forall i, j :: 0 <= i < j < |labels| ==> labels[i].value >= labels[j].value
  }

  /** A comparison of a label `y` with a bound `x`. */
  datatype Comparison = Below | AtMost | Above | AtLeast

  predicate Compares(cmp: Comparison, y: real, x: real) {
    match cmp
    case Below => y < x
    case AtMost => y <= x
    case Above => y > x
    case AtLeast => y >= x
  }

  /** `searchsorted` on a sorted index: how many leading labels compare with
      `x` as `cmp` says. */
  function Leading(labels: seq<Option<real>>, x: real, cmp: Comparison): (k: nat)
    ensures k <= |labels|
    ensures forall i :: 0 <= i < k ==> labels[i].Some? && Compares(cmp, labels[i].value, x)
    ensures k < |labels| ==> !(labels[k].Some? && Compares(cmp, labels[k].value, x))
  {
    if labels != [] && labels[0].Some? && Compares(cmp, labels[0].value, x)
    then 1 + Leading(labels[1..], x, cmp)
    else 0
  }

  /** A weaker comparison leads over at least as many labels. */
  lemma {:induction false} LeadingGrows(labels: seq<Option<real>>, x: real, cmp: Comparison, x': real, cmp': Comparison)
    requires forall y: real :: Compares(cmp, y, x) ==> Compares(cmp', y, x')
    ensures Leading(labels, x, cmp) <= Leading(labels, x', cmp')
  {
    if labels != [] && labels[0].Some? && Compares(cmp, labels[0].value, x) {
      LeadingGrows(labels[1..], x, cmp, x', cmp');
    }
  }

  /** The first position labelled `x`, or the length when there is none. */
  function FirstAt(labels: seq<Option<real>>, x: real): (i: nat)
    ensures i <= |labels|
    ensures forall k :: 0 <= k < i ==> labels[k] != Some(x)
    ensures i < |labels| ==> labels[i] == Some(x)
  {
    if labels == [] || labels[0] == Some(x) then 0 else 1 + FirstAt(labels[1..], x)
  }

  /** One past the last position labelled `x`, or 0 when there is none. */
  function EndAt(labels: seq<Option<real>>, x: real): (j: nat)
    ensures j <= |labels|
    ensures forall k :: j <= k < |labels| ==> labels[k] != Some(x)
    ensures j > 0 ==> labels[j - 1] == Some(x)
  {
    if labels == [] then 0
    else if labels[|labels| - 1] == Some(x) then |labels|
    else EndAt(labels[..|labels| - 1], x)
  }

  /** `get_loc(x)` on an index that is not sorted, as positions: the block of
      rows labelled `x`; a label that is absent, or whose rows are scattered,
      raises `KeyError` (`None`). */
  function Block(labels: seq<Option<real>>, x: real): (b: Option<(nat, nat)>)
    ensures b.Some? ==> b.value.0 < b.value.1 <= |labels|
    ensures b.Some? ==> forall i :: 0 <= i < |labels| ==> (labels[i] == Some(x) <==> b.value.0 <= i < b.value.1)
    ensures b.None? && Some(x) in labels ==>
      exists p, q, r :: 0 <= p < q < r < |labels| && labels[p] == Some(x) && labels[q] != Some(x) && labels[r] == Some(x)
  {
    var i, j := FirstAt(labels, x), EndAt(labels, x);
    if i < j && forall k :: i <= k < j ==> labels[k] == Some(x) then Some((i, j))
    else
      assert Some(x) in labels ==> i < j && labels[i] == Some(x) && labels[j - 1] == Some(x);
      None
  }

  /** The rows `df[-1000:-20]` keeps on a float index, as a slice of
      positions `(start, stop)`, or `None` when pandas raises.  On a sorted
      index the bounds are searched for (in the reversed labels when they
      descend); on any other index each bound must be a label whose rows
      form one block.  A stop before the start leaves nothing. */
  function LabelWindow(labels: seq<Option<real>>): (b: Option<(nat, nat)>)
    ensures b.Some? ==> b.value.0 <= b.value.1 <= |labels|
  {
    var bounds: Option<(nat, nat)> :=
      if Ascending(labels) then Some((Leading(labels, LowLabel, Below), Leading(labels, HighLabel, AtMost)))
      else if Descending(labels) then Some((Leading(labels, LowLabel, Above), Leading(labels, HighLabel, AtLeast)))
      else match (Block(labels, LowLabel), Block(labels, HighLabel))
        case (Some(s), Some(e)) => Some((s.0, e.1))
        case _ => None;
    match bounds
    case None => None
    case Some((start, stop)) => Some((start, if start <= stop then stop else start))
  }

  /** `get_plot_data_dict` on the lines of the log, the index's fields read as
      `classify` says: any failure gives `None`. */
  function PlotData<V>(lines: seq<seq<V>>, classify: V -> Literal): Option<seq<Record<V>>> {
    match ReadCsv(lines)
    case None => None
    case Some(t) =>
      match RowIndexOf(lines, classify)
      case Positional => Some(PySlice(Frame(t), WindowStart, WindowStop))
      case FloatLabels(labels) =>
        match LabelWindow(labels)
        case None => None
        case Some((start, stop)) => Some(Frame(t)[start..stop])
  }

  /** What the window holds when rows are picked by position: the data rows
      from `max(0, n-1000)` on, none of the last 20, each as the record of that
      row stamped with its position in the file (see `RecordOfCells` for what a
      record holds). */
  lemma PlotDataWindow<V>(lines: seq<seq<V>>, classify: V -> Literal, t: Table<V>)
    requires ReadCsv(lines) == Some(t) && RowIndexOf(lines, classify).Positional?
    ensures var n, lo := |t.rows|, Max0(|t.rows| - 1000);
      var w := PlotData(lines, classify).value;
      && |w| == Max0(n - 20) - lo && |w| <= 980
      && forall j :: 0 <= j < |w| ==> lo + j < n - 20 && w[j] == RecordOf(t.rows[lo + j], lo + j)
  {
    FrameWindow(t);
  }

  /** On an ascending index the window runs from the first label not below
      -1000 to the first label above -20. */
  lemma AscendingWindow(labels: seq<Option<real>>)
    requires Ascending(labels)
    ensures LabelWindow(labels) == Some((Leading(labels, LowLabel, Below), Leading(labels, HighLabel, AtMost)))
  {
    LeadingGrows(labels, LowLabel, Below, HighLabel, AtMost);
  }

  /** On an ascending index, `searchsorted` splits the labels: those before
      the position it finds compare with `x`, those from it on do not. */
  lemma AscendingSplit(labels: seq<Option<real>>, x: real, cmp: Comparison)
    requires Ascending(labels) && (cmp == Below || cmp == AtMost)
    ensures forall i :: 0 <= i < |labels| ==> (i < Leading(labels, x, cmp) <==> Compares(cmp, labels[i].value, x))
  {
    var k := Leading(labels, x, cmp);
    forall i | k <= i < |labels|
      ensures !Compares(cmp, labels[i].value, x)
    {
      assert labels[k].value <= labels[i].value;
    }
  }

  /** On an ascending index, those rows are exactly the ones labelled from
      -1000 to -20. */
  lemma AscendingLabelsInWindow(labels: seq<Option<real>>)
    requires Ascending(labels)
    ensures var lo, hi := Leading(labels, LowLabel, Below), Leading(labels, HighLabel, AtMost);
      forall i :: 0 <= i < |labels| ==> (lo <= i < hi <==> LowLabel <= labels[i].value <= HighLabel)
  {
    AscendingSplit(labels, LowLabel, Below);
    AscendingSplit(labels, HighLabel, AtMost);
  }

  /** On a float index the window is the slice `LabelWindow` gives, or
      nothing when it raises. */
  lemma PlotDataFloat<V>(lines: seq<seq<V>>, classify: V -> Literal, t: Table<V>)
    requires ReadCsv(lines) == Some(t) && RowIndexOf(lines, classify).FloatLabels?
    ensures var labels := RowIndexOf(lines, classify).labels;
      && |labels| == |Frame(t)|
      && PlotData(lines, classify) == match LabelWindow(labels)
           case None => None
           case Some(b) => Some(Frame(t)[b.0..b.1])
  {
  }

  /** On an ascending float index the window is the block of rows labelled
      from -1000 to -20, in file order, each as the record of its row. */
  lemma PlotDataByLabel<V>(lines: seq<seq<V>>, classify: V -> Literal, t: Table<V>)
    requires ReadCsv(lines) == Some(t)
    requires RowIndexOf(lines, classify).FloatLabels? && Ascending(RowIndexOf(lines, classify).labels)
    ensures var labels := RowIndexOf(lines, classify).labels;
      var lo, hi := Leading(labels, LowLabel, Below), Leading(labels, HighLabel, AtMost);
      && lo <= hi <= |t.rows|
      && PlotData(lines, classify) == Some(Frame(t)[lo..hi])
      && forall i :: 0 <= i < |labels| ==> (lo <= i < hi <==> LowLabel <= labels[i].value <= HighLabel)
  {
    var labels := RowIndexOf(lines, classify).labels;
    PlotDataFloat(lines, classify, t);
    AscendingWindow(labels);
    AscendingLabelsInWindow(labels);
  }

  /** On a descending index that is not constant, the window is empty:
      searched in the reversed labels, the stop (-20) falls before the start
      (-1000). */
  lemma DescendingWindow(labels: seq<Option<real>>)
    requires Descending(labels) && !Ascending(labels)
    ensures var start := Leading(labels, LowLabel, Above);
      LabelWindow(labels) == Some((start, start))
  {
  }

  /** On a descending float index the window is empty. */
  lemma PlotDataDescending<V>(lines: seq<seq<V>>, classify: V -> Literal)
    requires ReadCsv(lines).Some?
    requires RowIndexOf(lines, classify).FloatLabels?
    requires var labels := RowIndexOf(lines, classify).labels; Descending(labels) && !Ascending(labels)
    ensures PlotData(lines, classify) == Some([])
  {
    var labels := RowIndexOf(lines, classify).labels;
    DescendingWindow(labels);
    var start := Leading(labels, LowLabel, Above);
    var f := Frame(ReadCsv(lines).value);
    assert PlotData(lines, classify) == Some(f[start..start]);
    assert f[start..start] == [];
  }

  /** On a float index that is neither ascending nor descending (a NaN label
      makes any index so), a bound that is not a label makes pandas raise, and
      there is no data. */
  lemma PlotDataUnsortedMissingBound<V>(lines: seq<seq<V>>, classify: V -> Literal)
    requires ReadCsv(lines).Some?
    requires RowIndexOf(lines, classify).FloatLabels?
    requires var labels := RowIndexOf(lines, classify).labels;
      !Ascending(labels) && !Descending(labels) && (Some(LowLabel) !in labels || Some(HighLabel) !in labels)
    ensures PlotData(lines, classify) == None
  {
  }

  /** The sample logs below are written as the literals pandas reads, so each
      field is read as itself. */
  function AsRead(l: Literal): Literal {
    l
  }

  /** For example, a log whose index fields are floats from -30.5 to -25.5
      gives its whole frame, both rows, though a log of three lines gives none by position. */
  lemma FloatIndexInWindow()
    ensures var lines := [[TextLiteral], [FloatLiteral(-30.5), IntLiteral(1)], [FloatLiteral(-25.5), IntLiteral(2)]];
      PlotData(lines, AsRead) == Some(Frame(Table(1, [[Field(IntLiteral(1))], [Field(IntLiteral(2))]])))
  {
    var lines := [[TextLiteral], [FloatLiteral(-30.5), IntLiteral(1)], [FloatLiteral(-25.5), IntLiteral(2)]];
    var labels := [Some(-30.5), Some(-25.5)];
    var t := SampleTable(lines, [[Field(IntLiteral(1))], [Field(IntLiteral(2))]]);
    SampleIndex(lines, labels);
    InWindowLabels(labels);
    PlotDataByLabel(lines, AsRead, t);
    assert Frame(t)[0..2] == Frame(t);
  }

  /** The labels -30.5 and -25.5 ascend and both lie in the window. */
  lemma InWindowLabels(labels: seq<Option<real>>)
    requires labels == [Some(-30.5), Some(-25.5)]
    ensures Ascending(labels)
    ensures Leading(labels, LowLabel, Below) == 0 && Leading(labels, HighLabel, AtMost) == 2
  {
    assert Leading(labels[1..], HighLabel, AtMost) == 1;
  }

  /** For example, a log whose float index lies above -20 gives no rows. */
  lemma FloatIndexAboveWindow()
    ensures var lines := [[TextLiteral], [FloatLiteral(0.5), IntLiteral(1)], [FloatLiteral(1.5), IntLiteral(2)]];
      PlotData(lines, AsRead) == Some([])
  {
    var lines := [[TextLiteral], [FloatLiteral(0.5), IntLiteral(1)], [FloatLiteral(1.5), IntLiteral(2)]];
    var labels := [Some(0.5), Some(1.5)];
    var t := SampleTable(lines, [[Field(IntLiteral(1))], [Field(IntLiteral(2))]]);
    SampleIndex(lines, labels);
    AboveWindowLabels(labels);
    PlotDataByLabel(lines, AsRead, t);
  }

  /** The labels 0.5 and 1.5 ascend and both lie above the window. */
  lemma AboveWindowLabels(labels: seq<Option<real>>)
    requires labels == [Some(0.5), Some(1.5)]
    ensures Ascending(labels)
    ensures Leading(labels, LowLabel, Below) == 0 && Leading(labels, HighLabel, AtMost) == 0
  {
  }

  /** For example, a log whose float index is unsorted and lacks the label
      -1000 gives no data at all. */
  lemma FloatIndexUnsorted()
    ensures var lines := [[TextLiteral], [FloatLiteral(1.5), IntLiteral(1)], [FloatLiteral(0.25), IntLiteral(2)], [IntLiteral(3), IntLiteral(4)]];
      PlotData(lines, AsRead) == None
  {
    var lines := [[TextLiteral], [FloatLiteral(1.5), IntLiteral(1)], [FloatLiteral(0.25), IntLiteral(2)], [IntLiteral(3), IntLiteral(4)]];
    var labels := [Some(1.5), Some(0.25), Some(3.0)];
    var t := SampleTable(lines, [[Field(IntLiteral(1))], [Field(IntLiteral(2))], [Field(IntLiteral(4))]]);
    SampleIndex(lines, labels);
    assert !Ascending(labels) by {
      assert labels[0].value > labels[1].value;
    }
    assert !Descending(labels) by {
      assert labels[1].value < labels[2].value;
    }
    assert Block(labels, LowLabel) == None;
    PlotDataFloat(lines, AsRead, t);
  }

  /** A sample log of one column with one index field per data line parses
      to the data fields given. */
  lemma SampleTable(lines: seq<seq<Literal>>, rows: seq<seq<Cell<Literal>>>) returns (t: Table<Literal>)
    requires |lines| == |rows| + 1 >= 2 && lines[0] == [TextLiteral]
    requires forall i :: 1 <= i < |lines| ==> |lines[i]| == 2 && rows[i - 1] == [Field(lines[i][1])]
    ensures ReadCsv(lines) == Some(t) && t == Table(1, rows)
  {
    assert |lines[1]| == 2;
    assert IndexColumns(lines) == 1;
    t := ReadCsv(lines).value;
    assert |t.rows| == |rows|;
    forall i | 0 <= i < |rows|
      ensures t.rows[i] == rows[i]
    {
      assert t.rows[i] == DataRow(lines[i + 1], 1, 1);
    }
  }

  /** The index of a sample log: one number per data line, the first a float. */
  lemma SampleIndex(lines: seq<seq<Literal>>, labels: seq<Option<real>>)
    requires |lines| == |labels| + 1 >= 2 && lines[0] == [TextLiteral]
    requires forall i :: 1 <= i < |lines| ==> |lines[i]| == 2 && (lines[i][0].FloatLiteral? || lines[i][0].IntLiteral?)
    requires lines[1][0].FloatLiteral?
    requires forall i :: 1 <= i < |lines| ==> labels[i - 1] == LabelOf(lines[i][0])
    ensures RowIndexOf(lines, AsRead) == FloatLabels(labels)
  {
    assert |lines[1]| == 2;
    assert IndexColumns(lines) == 1;
    assert FloatOrMissing(IndexLiteral(lines[1], AsRead));
  }

  /** The window of a parsed table, row by row. */
  lemma FrameWindow<V>(t: Table<V>)
    ensures var n, lo := |t.rows|, Max0(|t.rows| - 1000);
      var w := PySlice(Frame(t), WindowStart, WindowStop);
      && |w| == Max0(n - 20) - lo && |w| <= 980
      && forall j :: 0 <= j < |w| ==> lo + j < n - 20 && w[j] == RecordOf(t.rows[lo + j], lo + j)
  {
    var f := Frame(t);
    var n, lo := |t.rows|, Max0(|t.rows| - 1000);
    WindowBounds(f);
    var w := f[lo..Max0(n - 20)];
    forall j | 0 <= j < |w|
      ensures lo + j < n - 20 && w[j] == RecordOf(t.rows[lo + j], lo + j)
    {
      assert w[j] == f[lo + j];
    }
  }

  /** A record holds one entry per column, under its name, and the time stamp. */
  lemma RecordOfCells<V>(row: seq<Cell<V>>, i: nat)
    ensures RecordOf(row, i).Keys == (set c | 0 <= c < |row| :: ColumnName(c)) + {TimeColumn}
    ensures RecordOf(row, i)[TimeColumn] == Time(i)
    ensures forall c :: 0 <= c < |row| ==> RecordOf(row, i)[ColumnName(c)] == row[c]
  {
    ColumnNamesDistinct();
  }

  /** A log of at most 21 lines (header included) whose rows are picked by
      position yields no rows to plot. */
  lemma ShortLogGivesEmptyWindow<V>(lines: seq<seq<V>>, classify: V -> Literal)
    requires |lines| <= 21
    ensures |lines| == 0 || RowIndexOf(lines, classify).Positional? ==>
      PlotData(lines, classify) == None || PlotData(lines, classify) == Some([])
  {
    match ReadCsv(lines)
    case None =>
    case Some(t) => WindowBounds(Frame(t));
  }
}
