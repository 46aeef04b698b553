/**
 * How the three stages meet. The profiling stage produces means indexed by
 * column position; the role labelling and the weak-spot analysis read them
 * by statistic name. `NamedRow` and `MeansTable` put the names back, and the
 * lemmas show that the tables built this way from the program's own data
 * meet what the later stages ask of their inputs.
 */
module Pipeline {
  import opened Common
  import DataProcessor
  import RoleAssigner
  import WeakSpots

  /**
   * A row of numbers under its column names. For a repeated name the model
   * keeps the later column; the program's column lists have no repeats.
   */
  function NamedRow(cols: seq<string>, values: seq<real>): (row: WeakSpots.StatRow)
    requires |values| == |cols|
    ensures row.Keys == set c | c in cols
    decreases |cols|
  {
    if cols == [] then map[]
    else
      var n := |cols| - 1;
      assert forall c :: c in cols <==> c in cols[..n] || c == cols[n];
      NamedRow(cols[..n], values[..n])[cols[n] := Some(values[n])]
  }

  /** Each name reads the number of its last column. */
  lemma {:induction false} NamedRowValue(cols: seq<string>, values: seq<real>, j: nat)
    requires |values| == |cols| && j < |cols|
    requires forall k :: j < k < |cols| ==> cols[k] != cols[j]
    ensures NamedRow(cols, values)[cols[j]] == Some(values[j])
    decreases |cols|
  {
    var n := |cols| - 1;
    if j < n {
      assert cols[..n][j] == cols[j] && values[..n][j] == values[j];
      NamedRowValue(cols[..n], values[..n], j);
    }
  }

  /** The cluster-means table with named columns: one named row per cluster. */
  function MeansTable(cols: seq<string>, means: map<int, seq<real>>): (table: map<int, WeakSpots.StatRow>)
    requires forall c :: c in means ==> |means[c]| == |cols|
    ensures table.Keys == means.Keys
    ensures forall c :: c in table ==> table[c].Keys == set s | s in cols
  {
    map c | c in means :: NamedRow(cols, means[c])
  }

  /**
   * With every clustering column in the dataset, every row of the program's
   * cluster-means table carries the statistics the role rules read.
   */
  lemma ProgramMeansHaveRoleStats(
    header: seq<string>, stats: seq<seq<real>>, labels: seq<int>, c: int)
    requires forall s :: s in WeakSpots.ClusteringStats ==> s in header
    requires var cols := DataProcessor.RetainedColumns(WeakSpots.ClusteringStats, header);
      |labels| == |stats| && DataProcessor.Rectangular(stats, |cols|)
    requires c in labels
    ensures var cols := DataProcessor.RetainedColumns(WeakSpots.ClusteringStats, header);
      var table := MeansTable(cols, DataProcessor.ClusterMeans(stats, labels, |cols|));
      c in table && RoleAssigner.HasRoleStats(table[c])
  {
    WeakSpots.TablesCoverColumns();
  }

  /**
   * Players whose rows carry the statistic columns and whose clusters occur
   * among the labels meet the analysis' input condition against the
   * program's cluster-means table.
   */
  lemma ProgramMeansAreWellFormed(
    cols: seq<string>, stats: seq<seq<real>>, labels: seq<int>, rows: seq<WeakSpots.PlayerRow>)
    requires |labels| == |stats| && DataProcessor.Rectangular(stats, |cols|)
    requires forall i :: 0 <= i < |rows| ==>
               rows[i].cluster in labels && forall s :: s in cols ==> s in rows[i].stats
    ensures WeakSpots.WellFormed(rows, MeansTable(cols, DataProcessor.ClusterMeans(stats, labels, |cols|)), cols)
  {
  }
}
