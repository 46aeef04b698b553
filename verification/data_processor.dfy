/**
 * Data preparation and cluster profiling (`nba_data_processor.py`).
 *
 * `LoadAndPreprocess` keeps the declared statistic columns that the dataset
 * has, coerces each of them to numbers column by column, and keeps the rows
 * whose retained columns are all numeric, with their original positions.
 * `ClusterMeans` and `OverallMeans` are the grouped and the population-wide
 * arithmetic means over the cleaned statistics, given the cluster label of
 * every row (the clustering itself is an input).
 */
module DataProcessor {
  import opened Common

  /** One spreadsheet cell: a number, some text, or nothing. */
  datatype Cell = Num(x: real) | Text(t: string) | Blank

  /** One row of the spreadsheet: column name to cell. */
  type Record = map<string, Cell>

  /** The spreadsheet: its column names and its rows, in file order (position = index). */
  datatype Dataset = Dataset(header: seq<string>, rows: seq<Record>)

  /** How the dataset's text is read as a number (`pd.to_numeric`'s parser). */
  type Parser = string -> Option<real>

  /** The column holding each player's name. */
  const NameColumn := "PLAYER_NAME"

  /** A row's cell in a column; a row without that column holds an empty cell. */
  function CellAt(r: Record, col: string): Cell
  {
    if col in r then r[col] else Blank
  }

  /** Coercion of one cell to a number: numbers stay, unreadable text becomes empty (NaN). */
  function CoerceCell(c: Cell, parse: Parser): (r: Cell)
    ensures !r.Text?
    ensures c.Num? ==> r == c
    ensures c.Blank? ==> r == Blank
  {
    match c
    case Num(_) => c
    case Text(t) => (match parse(t) case Some(x) => Num(x) case None => Blank)
    case Blank => Blank
  }

  /** The declared statistic columns that the dataset has, in declared order. */
  function RetainedColumns(declared: seq<string>, header: seq<string>): (cols: seq<string>)
    ensures forall c :: c in cols <==> c in declared && c in header
    ensures |cols| <= |declared|
  {
    if declared == [] then []
    else (if declared[0] in header then [declared[0]] else []) + RetainedColumns(declared[1..], header)
  }

  /** A column after coercion. */
  function CoercedColumn(rows: seq<Record>, col: string, parse: Parser): (column: seq<Cell>)
    ensures |column| == |rows|
  {
    seq(|rows|, i requires 0 <= i < |rows| => CoerceCell(CellAt(rows[i], col), parse))
  }

  /** Every retained column of row `r` coerces to a number. */
  predicate RowComplete(r: Record, cols: seq<string>, parse: Parser)
  {
    forall j :: 0 <= j < |cols| ==> CoerceCell(CellAt(r, cols[j]), parse).Num?
  }

  /** The coerced numbers of a complete row, in column order. */
  function RowValues(r: Record, cols: seq<string>, parse: Parser): (values: seq<real>)
    requires RowComplete(r, cols, parse)
    ensures |values| == |cols|
    ensures forall j :: 0 <= j < |cols| ==> CoerceCell(CellAt(r, cols[j]), parse) == Num(values[j])
  {
    seq(|cols|, j requires 0 <= j < |cols| => CoerceCell(CellAt(r, cols[j]), parse).x)
  }

  /** The positions among the first `n` rows that `dropna` keeps, in order. */
  function KeptIndices(rows: seq<Record>, cols: seq<string>, parse: Parser, n: nat): (kept: seq<nat>)
    requires n <= |rows|
    ensures forall a :: 0 <= a < |kept| ==> kept[a] < n
    ensures |kept| <= n
    ensures forall i: nat :: i in kept <==> i < n && RowComplete(rows[i], cols, parse)
    ensures forall a, b :: 0 <= a < b < |kept| ==> kept[a] < kept[b]
  {
    if n == 0 then []
    else
      KeptIndices(rows, cols, parse, n - 1) +
      (if RowComplete(rows[n - 1], cols, parse) then [n - 1] else [])
  }

  /** The cleaned data: retained columns, kept positions and the rows at them. */
  datatype Cleaned = Cleaned(
    columns: seq<string>,     // the retained statistic columns
    indices: seq<nat>,        // the original positions of the kept rows
    stats: seq<seq<real>>,    // stats_for_clustering: numbers of the kept rows
    records: seq<Record>,     // player_data_cleaned: the kept rows, all columns
    names: seq<Cell>)         // player_names_for_clustering

  /** Why preparation returns the failure triple. */
  datatype LoadError = FileNotFound | NoStatColumns

  /** The result of `load_and_preprocess_data` on a dataset already read. */
  function Preprocess(data: Dataset, declared: seq<string>, parse: Parser): (r: Result<Cleaned, LoadError>)
    ensures r.Failure? ==> r.error == NoStatColumns
    ensures r.Success? ==>
      && |r.value.indices| == |r.value.stats| == |r.value.records| == |r.value.names| <= |data.rows|
      && forall a :: 0 <= a < |r.value.stats| ==> |r.value.stats[a]| == |r.value.columns|
  {
    var cols := RetainedColumns(declared, data.header);
    if cols == [] then Failure(NoStatColumns)
    else
      var kept := KeptIndices(data.rows, cols, parse, |data.rows|);
      Success(Cleaned(
        cols,
        kept,
        seq(|kept|, a requires 0 <= a < |kept| => RowValues(data.rows[kept[a]], cols, parse)),
        seq(|kept|, a requires 0 <= a < |kept| => data.rows[kept[a]]),
        seq(|kept|, a requires 0 <= a < |kept| => CellAt(data.rows[kept[a]], NameColumn))))
  }

  /** The positions among the first `n` where every column of a column-major frame is a number. */
  function NumericRows(frame: seq<seq<Cell>>, n: nat): (kept: seq<nat>)
    requires forall j :: 0 <= j < |frame| ==> n <= |frame[j]|
  {
    if n == 0 then []
    else
      NumericRows(frame, n - 1) +
      (if forall j :: 0 <= j < |frame| ==> frame[j][n - 1].Num? then [n - 1] else [])
  }

  /** `dropna` on the coerced frame keeps exactly the complete rows. */
  lemma {:induction false} NumericRowsAreComplete(
    rows: seq<Record>, cols: seq<string>, parse: Parser, frame: seq<seq<Cell>>, n: nat)
    requires n <= |rows| && |frame| == |cols|
    requires forall j :: 0 <= j < |frame| ==> |frame[j]| == |rows|
    requires forall j :: 0 <= j < |cols| ==> frame[j] == CoercedColumn(rows, cols[j], parse)
    ensures NumericRows(frame, n) == KeptIndices(rows, cols, parse, n)
  {
    if n > 0 {
      NumericRowsAreComplete(rows, cols, parse, frame, n - 1);
      assert (forall j :: 0 <= j < |frame| ==> frame[j][n - 1].Num?) ==
             RowComplete(rows[n - 1], cols, parse);
    }
  }

  /** The numbers of the kept rows, read row by row from a column-major frame. */
  function KeptValues(frame: seq<seq<Cell>>, kept: seq<nat>): (values: seq<seq<real>>)
    requires forall a, j :: 0 <= a < |kept| && 0 <= j < |frame| ==>
               kept[a] < |frame[j]| && frame[j][kept[a]].Num?
    ensures |values| == |kept|
    ensures forall a :: 0 <= a < |kept| ==> |values[a]| == |frame|
  {
    seq(|kept|, a requires 0 <= a < |kept| =>
      seq(|frame|, j requires 0 <= j < |frame| => frame[j][kept[a]].x))
  }

  /** Read back from the coerced frame, the kept rows' numbers are their coerced cells. */
  lemma KeptValuesAreRowValues(rows: seq<Record>, cols: seq<string>, parse: Parser, frame: seq<seq<Cell>>)
    requires |frame| == |cols|
    requires forall j :: 0 <= j < |cols| ==> frame[j] == CoercedColumn(rows, cols[j], parse)
    ensures var kept := KeptIndices(rows, cols, parse, |rows|);
      && (forall a, j :: 0 <= a < |kept| && 0 <= j < |frame| ==>
            kept[a] < |frame[j]| && frame[j][kept[a]].Num?)
      && KeptValues(frame, kept) ==
           seq(|kept|, a requires 0 <= a < |kept| => RowValues(rows[kept[a]], cols, parse))
  {
    var kept := KeptIndices(rows, cols, parse, |rows|);
    forall a | 0 <= a < |kept|
      ensures forall j :: 0 <= j < |frame| ==> kept[a] < |frame[j]| && frame[j][kept[a]].Num?
      ensures KeptValues(frame, kept)[a] == RowValues(rows[kept[a]], cols, parse)
    {
      assert kept[a] in kept;
      assert RowComplete(rows[kept[a]], cols, parse);
    }
  }

  /**
   * `load_and_preprocess_data`: `file` is the spreadsheet at the path, or
   * None when no file exists there. Keep the declared columns the dataset
   * has, coerce them one column at a time, drop the rows with a missing
   * value, and take the original rows and names at the kept positions.
   */
  method LoadAndPreprocess(file: Option<Dataset>, declared: seq<string>, parse: Parser)
    returns (r: Result<Cleaned, LoadError>)
    requires file.Some? && RetainedColumns(declared, file.value.header) != [] ==>
             NameColumn in file.value.header
    ensures file.None? ==> r == Failure(FileNotFound)
    ensures file.Some? ==> r == Preprocess(file.value, declared, parse)
  {
    if file.None? {
      return Failure(FileNotFound);
    }
    var data := file.value;
    var cols := RetainedColumns(declared, data.header);
    if cols == [] {
      return Failure(NoStatColumns);
    }
    var rows := data.rows;
    // stats_for_clustering, column-major; each column is rewritten in place
    var frame := new seq<Cell>[|cols|];
    for j := 0 to |cols|
      invariant forall k :: 0 <= k < j ==> frame[k] == CoercedColumn(rows, cols[k], parse)
    {
      var column := seq(|rows|, i requires 0 <= i < |rows| => CellAt(rows[i], cols[j]));
      column := seq(|column|, i requires 0 <= i < |column| => CoerceCell(column[i], parse));
      frame[j] := column;
    }
    var coerced := frame[..];
    NumericRowsAreComplete(rows, cols, parse, coerced, |rows|);
    var kept := NumericRows(coerced, |rows|);
    KeptValuesAreRowValues(rows, cols, parse, coerced);
    var stats := KeptValues(coerced, kept);
    var records := seq(|kept|, a requires 0 <= a < |kept| => rows[kept[a]]);
    var names := seq(|kept|, a requires 0 <= a < |kept| => CellAt(records[a], NameColumn));
    r := Success(Cleaned(cols, kept, stats, records, names));
    var spec := Preprocess(data, declared, parse);
    assert spec.value.indices == kept;
    assert spec.value.stats == stats;
    assert spec.value.records == records;
    assert spec.value.names == names;
  }

  // ---------------------------------------------------------------------------
  // Properties of the preparation

  /** The retained columns keep the declared order: the filter distributes over concatenation. */
  lemma {:induction false} RetainedColumnsInOrder(a: seq<string>, b: seq<string>, header: seq<string>)
    ensures RetainedColumns(a + b, header) == RetainedColumns(a, header) + RetainedColumns(b, header)
  {
    if a == [] {
      assert a + b == b;
    } else {
      assert (a + b)[1..] == a[1..] + b;
      RetainedColumnsInOrder(a[1..], b, header);
    }
  }

  /** When every declared column is present, all are retained, in declared order. */
  lemma {:induction false} AllPresentAllRetained(declared: seq<string>, header: seq<string>)
    requires forall c :: c in declared ==> c in header
    ensures RetainedColumns(declared, header) == declared
  {
    if declared != [] {
      AllPresentAllRetained(declared[1..], header);
    }
  }

  /**
   * Preparation fails exactly when no declared column is present; otherwise
   * it returns the retained columns.
   */
  lemma FailsOnlyWithoutColumns(data: Dataset, declared: seq<string>, parse: Parser)
    ensures Preprocess(data, declared, parse).Failure? <==>
            forall c :: c in declared ==> c !in data.header
    ensures Preprocess(data, declared, parse).Success? ==>
            Preprocess(data, declared, parse).value.columns == RetainedColumns(declared, data.header)
  {
    var cols := RetainedColumns(declared, data.header);
    if cols != [] {
      assert cols[0] in cols;
    }
  }

  /**
   * Row cleaning: a row is kept exactly when every retained column holds a
   * number after coercion; the kept rows are the original rows at their
   * original positions, in the original order, and their statistics are
   * those numbers.
   */
  lemma KeptRowsAreTheCompleteOnes(data: Dataset, declared: seq<string>, parse: Parser)
    requires Preprocess(data, declared, parse).Success?
    ensures var c := Preprocess(data, declared, parse).value;
      && |c.indices| == |c.stats| == |c.records| == |c.names|
      && (forall i :: i in c.indices <==>
            0 <= i < |data.rows| && RowComplete(data.rows[i], c.columns, parse))
      && (forall a, b :: 0 <= a < b < |c.indices| ==> c.indices[a] < c.indices[b])
      && (forall a :: 0 <= a < |c.indices| ==>
            c.records[a] == data.rows[c.indices[a]] &&
            c.names[a] == CellAt(data.rows[c.indices[a]], NameColumn) &&
            |c.stats[a]| == |c.columns| &&
            forall j :: 0 <= j < |c.columns| ==>
              CoerceCell(CellAt(data.rows[c.indices[a]], c.columns[j]), parse) == Num(c.stats[a][j]))
  {
  }

  /** A dataset where no row is complete is not rejected: it yields zero rows. */
  lemma EmptyRowSetPasses(data: Dataset, declared: seq<string>, parse: Parser)
    requires RetainedColumns(declared, data.header) != []
    requires forall i :: 0 <= i < |data.rows| ==>
               !RowComplete(data.rows[i], RetainedColumns(declared, data.header), parse)
    ensures Preprocess(data, declared, parse).Success?
    ensures Preprocess(data, declared, parse).value.stats == []
  {
    NoneKept(data.rows, RetainedColumns(declared, data.header), parse, |data.rows|);
  }

  /** Without a complete row among the first `n`, no position is kept. */
  lemma {:induction false} NoneKept(rows: seq<Record>, cols: seq<string>, parse: Parser, n: nat)
    requires n <= |rows|
    requires forall i :: 0 <= i < n ==> !RowComplete(rows[i], cols, parse)
    ensures KeptIndices(rows, cols, parse, n) == []
  {
    if n > 0 {
      NoneKept(rows, cols, parse, n - 1);
    }
  }

  // ---------------------------------------------------------------------------
  // Cluster profiling: the per-cluster and the population-wide means

  /** Every row has one value per statistic column. */
  predicate Rectangular(rows: seq<seq<real>>, width: nat)
  {
    forall i :: 0 <= i < |rows| ==> |rows[i]| == width
  }

  /** The number of rows labelled `c`. */
  function Count(labels: seq<int>, c: int): (n: nat)
    ensures n <= |labels|
  {
    if labels == [] then 0
    else (if labels[0] == c then 1 else 0) + Count(labels[1..], c)
  }

  /** A label occurs in some row exactly when its count is positive. */
  lemma {:induction false} CountPositiveIffPresent(labels: seq<int>, c: int)
    ensures Count(labels, c) > 0 <==> c in labels
  {
    if labels != [] {
      CountPositiveIffPresent(labels[1..], c);
      assert labels == [labels[0]] + labels[1..];
    }
  }

  /** The sum of column `j` over the rows labelled `c`. */
  function ClusterSum(rows: seq<seq<real>>, labels: seq<int>, c: int, j: nat): real
    requires |labels| == |rows| && forall i :: 0 <= i < |rows| ==> j < |rows[i]|
  {
    if rows == [] then 0.0
    else (if labels[0] == c then rows[0][j] else 0.0) + ClusterSum(rows[1..], labels[1..], c, j)
  }

  /** The sum of column `j` over all rows. */
  function TotalSum(rows: seq<seq<real>>, j: nat): real
    requires forall i :: 0 <= i < |rows| ==> j < |rows[i]|
  {
    if rows == [] then 0.0 else rows[0][j] + TotalSum(rows[1..], j)
  }

  /** The mean of column `j` over cluster `c` (0 for a label that does not occur). */
  function ClusterMean(rows: seq<seq<real>>, labels: seq<int>, c: int, j: nat): real
    requires |labels| == |rows| && forall i :: 0 <= i < |rows| ==> j < |rows[i]|
  {
    if Count(labels, c) == 0 then 0.0 else ClusterSum(rows, labels, c, j) / Count(labels, c) as real
  }

  /** The per-cluster mean table: one entry per label that occurs, one mean per column. */
  function ClusterMeans(rows: seq<seq<real>>, labels: seq<int>, width: nat): (means: map<int, seq<real>>)
    requires |labels| == |rows| && Rectangular(rows, width)
    ensures forall c :: c in means <==> c in labels
    ensures forall c :: c in means ==> |means[c]| == width
  {
    map c | c in labels :: seq(width, j requires 0 <= j < width => ClusterMean(rows, labels, c, j))
  }

  /** The population-wide mean of each column; NaN (None) when there are no rows. */
  function OverallMeans(rows: seq<seq<real>>, width: nat): (means: seq<Option<real>>)
    requires Rectangular(rows, width)
    ensures |means| == width
    ensures forall j :: 0 <= j < width ==> (means[j].Some? <==> rows != [])
  {
    seq(width, j requires 0 <= j < width =>
      if rows == [] then None else Some(TotalSum(rows, j) / |rows| as real))
  }

  /** `n * x` as repeated addition, which keeps the bound proofs linear. */
  function Times(n: nat, x: real): real
  {
    if n == 0 then 0.0 else Times(n - 1, x) + x
  }

  /** Repeated addition is multiplication. */
  lemma {:induction false} TimesIsProduct(n: nat, x: real)
    ensures Times(n, x) == n as real * x
  {
    if n > 0 {
      TimesIsProduct(n - 1, x);
      assert (n - 1) as real * x + x == n as real * x;
    }
  }

  /** Bounds on the members bound their sum. */
  lemma {:induction false} ClusterSumBounds(
    rows: seq<seq<real>>, labels: seq<int>, c: int, j: nat, lo: real, hi: real)
    requires |labels| == |rows| && forall i :: 0 <= i < |rows| ==> j < |rows[i]|
    requires forall i :: 0 <= i < |rows| && labels[i] == c ==> lo <= rows[i][j] <= hi
    ensures Times(Count(labels, c), lo) <= ClusterSum(rows, labels, c, j) <= Times(Count(labels, c), hi)
  {
    if rows != [] {
      ClusterSumBounds(rows[1..], labels[1..], c, j, lo, hi);
    }
  }

  /**
   * Each cluster mean lies between its members' values: any bounds that hold
   * for every member of the cluster hold for its mean.
   */
  lemma MeanWithinMembers(
    rows: seq<seq<real>>, labels: seq<int>, width: nat, c: int, j: nat, lo: real, hi: real)
    requires |labels| == |rows| && Rectangular(rows, width) && j < width
    requires c in labels
    requires forall i :: 0 <= i < |rows| && labels[i] == c ==> lo <= rows[i][j] <= hi
    ensures lo <= ClusterMeans(rows, labels, width)[c][j] <= hi
  {
    ClusterSumBounds(rows, labels, c, j, lo, hi);
    TimesIsProduct(Count(labels, c), lo);
    TimesIsProduct(Count(labels, c), hi);
    CountPositiveIffPresent(labels, c);
    var n := Count(labels, c) as real;
    var s := ClusterSum(rows, labels, c, j);
    assert n * lo <= s <= n * hi && n > 0.0;
    assert ClusterMeans(rows, labels, width)[c][j] == s / n;
    DivideBounds(s, n, lo, hi);
  }

  /** Dividing `n * lo <= s <= n * hi` by a positive `n`. */
  lemma DivideBounds(s: real, n: real, lo: real, hi: real)
    requires n > 0.0 && n * lo <= s <= n * hi
    ensures lo <= s / n <= hi
  {
    assert s / n * n == s;
  }

  /** The sum over the clusters below `k` of a per-cluster quantity: size times mean. */
  function SizeWeightedSum(rows: seq<seq<real>>, labels: seq<int>, j: nat, k: nat): real
    requires |labels| == |rows| && forall i :: 0 <= i < |rows| ==> j < |rows[i]|
  {
    if k == 0 then 0.0
    else SizeWeightedSum(rows, labels, j, k - 1) +
         Count(labels, k - 1) as real * ClusterMean(rows, labels, k - 1, j)
  }

  /** The total number of rows in the clusters below `k`. */
  function SizeSum(labels: seq<int>, k: nat): nat
  {
    if k == 0 then 0 else SizeSum(labels, k - 1) + Count(labels, k - 1)
  }

  /** The sum of column `j` over the rows whose label lies in [0, k). */
  function SumBelow(rows: seq<seq<real>>, labels: seq<int>, j: nat, k: nat): real
    requires |labels| == |rows| && forall i :: 0 <= i < |rows| ==> j < |rows[i]|
  {
    if rows == [] then 0.0
    else (if 0 <= labels[0] < k then rows[0][j] else 0.0) + SumBelow(rows[1..], labels[1..], j, k)
  }

  /** The number of labels in [0, k). */
  function CountBelow(labels: seq<int>, k: nat): nat
  {
    if labels == [] then 0 else (if 0 <= labels[0] < k then 1 else 0) + CountBelow(labels[1..], k)
  }

  /** Widening [0, k) to [0, k + 1) adds cluster k. */
  lemma {:induction false} SumBelowStep(rows: seq<seq<real>>, labels: seq<int>, j: nat, k: nat)
    requires |labels| == |rows| && forall i :: 0 <= i < |rows| ==> j < |rows[i]|
    ensures SumBelow(rows, labels, j, k + 1) == SumBelow(rows, labels, j, k) + ClusterSum(rows, labels, k, j)
    ensures CountBelow(labels, k + 1) == CountBelow(labels, k) + Count(labels, k)
  {
    if rows != [] {
      SumBelowStep(rows[1..], labels[1..], j, k);
    }
  }

  /** Summing the cluster totals below `k` gives the total of the rows labelled below `k`. */
  lemma {:induction false} SizeWeightedIsSumBelow(rows: seq<seq<real>>, labels: seq<int>, j: nat, k: nat)
    requires |labels| == |rows| && forall i :: 0 <= i < |rows| ==> j < |rows[i]|
    ensures SizeWeightedSum(rows, labels, j, k) == SumBelow(rows, labels, j, k)
    ensures SizeSum(labels, k) == CountBelow(labels, k)
  {
    if k == 0 {
      ZeroBelow(rows, labels, j);
    } else {
      SizeWeightedIsSumBelow(rows, labels, j, k - 1);
      SumBelowStep(rows, labels, j, k - 1);
      SizeWeightedStep(rows, labels, j, k - 1);
    }
  }

  /** Adding cluster `k` to the weighted sum adds that cluster's total. */
  lemma SizeWeightedStep(rows: seq<seq<real>>, labels: seq<int>, j: nat, k: nat)
    requires |labels| == |rows| && forall i :: 0 <= i < |rows| ==> j < |rows[i]|
    ensures SizeWeightedSum(rows, labels, j, k + 1) ==
            SizeWeightedSum(rows, labels, j, k) + ClusterSum(rows, labels, k, j)
  {
    SizeTimesMean(rows, labels, k, j);
  }

  /** A cluster's size times its mean is its total. */
  lemma SizeTimesMean(rows: seq<seq<real>>, labels: seq<int>, c: int, j: nat)
    requires |labels| == |rows| && forall i :: 0 <= i < |rows| ==> j < |rows[i]|
    ensures Count(labels, c) as real * ClusterMean(rows, labels, c, j) == ClusterSum(rows, labels, c, j)
  {
    var n := Count(labels, c) as real;
    if n == 0.0 {
      CountPositiveIffPresent(labels, c);
      ClusterSumBounds(rows, labels, c, j, 0.0, 0.0);
    }
  }

  /** No label lies below 0. */
  lemma {:induction false} ZeroBelow(rows: seq<seq<real>>, labels: seq<int>, j: nat)
    requires |labels| == |rows| && forall i :: 0 <= i < |rows| ==> j < |rows[i]|
    ensures SumBelow(rows, labels, j, 0) == 0.0 && CountBelow(labels, 0) == 0
  {
    if rows != [] {
      ZeroBelow(rows[1..], labels[1..], j);
    }
  }

  /** When every label lies in [0, k), the rows below `k` are all the rows. */
  lemma {:induction false} AllBelow(rows: seq<seq<real>>, labels: seq<int>, j: nat, k: nat)
    requires |labels| == |rows| && forall i :: 0 <= i < |rows| ==> j < |rows[i]|
    requires forall i :: 0 <= i < |labels| ==> 0 <= labels[i] < k
    ensures SumBelow(rows, labels, j, k) == TotalSum(rows, j)
    ensures CountBelow(labels, k) == |labels|
  {
    if rows != [] {
      AllBelow(rows[1..], labels[1..], j, k);
    }
  }

  /**
   * With cluster ids in [0, k), the cluster sizes add up to the number of
   * rows, and the population mean of each column is the size-weighted average
   * of the cluster means.
   */
  lemma OverallIsWeightedAverage(rows: seq<seq<real>>, labels: seq<int>, width: nat, k: nat, j: nat)
    requires |labels| == |rows| && Rectangular(rows, width) && j < width
    requires forall i :: 0 <= i < |labels| ==> 0 <= labels[i] < k
    ensures SizeSum(labels, k) == |rows|
    ensures rows != [] ==>
      OverallMeans(rows, width)[j] == Some(SizeWeightedSum(rows, labels, j, k) / |rows| as real)
  {
    SizeWeightedIsSumBelow(rows, labels, j, k);
    AllBelow(rows, labels, j, k);
  }
}
