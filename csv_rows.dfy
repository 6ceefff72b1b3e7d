/**
 * The rows of the combined table the subscriber writes at the end of a
 * run: row i pairs the i-th latency with the i-th backlog sample, and
 * the shorter series is padded with empty cells.
 */
module CsvRows {
  import opened Wrappers
  import opened Rounding

  /** The header line of the combined table ("second", latency, queued messages). */
  const Header: seq<string> := ["Detik ke-", "Latency (ms)", "Queued Messages"]

  /**
   * One data row: its 1-based number, the latency printed with three
   * decimals (kept as whole thousandths) and the backlog sample; an
   * absent cell is written empty.
   */
  datatype Row = Row(second: nat, latencyMilli: Option<int>, queued: Option<nat>)

  /** What is written: nothing at all when both series are empty, otherwise the header and the rows. */
  datatype CsvTable = NoData | Table(header: seq<string>, rows: seq<Row>)

  function Max(a: nat, b: nat): nat {
    if a < b then b else a
  }

  /** Row `i` (counting from 0) of the merge of `latencies` and `queueSamples`. */
  predicate IsMergedRow(latencies: seq<real>, queueSamples: seq<nat>, i: nat, row: Row) {
    && row.second == i + 1
    && (row.latencyMilli.Some? <==> i < |latencies|)
    && (i < |latencies| ==> row.latencyMilli.value == Thousandths(latencies[i]))
    && (row.queued.Some? <==> i < |queueSamples|)
    && (i < |queueSamples| ==> row.queued.value == queueSamples[i])
  }

  /** `rows` is the merge: as many rows as the longer series, each one the merged row at its index. */
  predicate IsMerge(latencies: seq<real>, queueSamples: seq<nat>, rows: seq<Row>) {
    && |rows| == Max(|latencies|, |queueSamples|)
    && forall i :: 0 <= i < |rows| ==> IsMergedRow(latencies, queueSamples, i, rows[i])
  }

  /** Builds the table `save_to_csv` writes from the two series collected during the run. */
  method SaveRows(latencies: seq<real>, queueSamples: seq<nat>) returns (table: CsvTable)
    ensures table.NoData? <==> latencies == [] && queueSamples == []
    ensures table.Table? ==> table.header == Header && IsMerge(latencies, queueSamples, table.rows)
  {
    if latencies == [] && queueSamples == [] {
      return NoData;
    }
    var maxLen := Max(|latencies|, |queueSamples|);
    var rows: seq<Row> := [];
    for i := 0 to maxLen
      invariant |rows| == i
      invariant forall k :: 0 <= k < i ==> IsMergedRow(latencies, queueSamples, k, rows[k])
    {
      var latency := if i < |latencies| then Some(Thousandths(latencies[i])) else None;
      var queueVal := if i < |queueSamples| then Some(queueSamples[i]) else None;
      rows := rows + [Row(i + 1, latency, queueVal)];
    }
    return Table(Header, rows);
  }

  /** The merge is determined by the two series: two merges of the same series are equal. */
  lemma MergeUnique(latencies: seq<real>, queueSamples: seq<nat>, rows1: seq<Row>, rows2: seq<Row>)
    requires IsMerge(latencies, queueSamples, rows1) && IsMerge(latencies, queueSamples, rows2)
    ensures rows1 == rows2
  {
    forall i | 0 <= i < |rows1|
      ensures rows1[i] == rows2[i]
    {
      assert IsMergedRow(latencies, queueSamples, i, rows1[i]);
      assert IsMergedRow(latencies, queueSamples, i, rows2[i]);
    }
  }

  /** Every row of a merge has at least one filled cell. */
  lemma NoBlankRow(latencies: seq<real>, queueSamples: seq<nat>, rows: seq<Row>, i: nat)
    requires IsMerge(latencies, queueSamples, rows) && i < |rows|
    ensures rows[i].latencyMilli.Some? || rows[i].queued.Some?
  {
    assert IsMergedRow(latencies, queueSamples, i, rows[i]);
  }

  /** The filled latency cells of `rows`, top to bottom. */
  function LatencyColumn(rows: seq<Row>): seq<int> {
    if rows == [] then []
    else
      var last := rows[|rows| - 1];
      LatencyColumn(rows[..|rows| - 1]) + (if last.latencyMilli.Some? then [last.latencyMilli.value] else [])
  }

  /** The filled backlog cells of `rows`, top to bottom. */
  function QueueColumn(rows: seq<Row>): seq<nat> {
    if rows == [] then []
    else
      var last := rows[|rows| - 1];
      QueueColumn(rows[..|rows| - 1]) + (if last.queued.Some? then [last.queued.value] else [])
  }

  /** Each latency rounded to three decimals, in thousandths. */
  function Rounded(latencies: seq<real>): (r: seq<int>)
    ensures |r| == |latencies|
  {
    seq(|latencies|, i requires 0 <= i < |latencies| => Thousandths(latencies[i]))
  }

  function Min(a: nat, b: nat): nat {
    if a < b then a else b
  }

  /** Reading the table back column by column gives both series again, latencies rounded. */
  lemma ColumnsRecovered(latencies: seq<real>, queueSamples: seq<nat>, rows: seq<Row>)
    requires IsMerge(latencies, queueSamples, rows)
    ensures LatencyColumn(rows) == Rounded(latencies)
    ensures QueueColumn(rows) == queueSamples
  {
    ColumnsOfPrefix(latencies, queueSamples, rows, |rows|);
    assert rows[..|rows|] == rows;
    assert Rounded(latencies)[..Min(|rows|, |latencies|)] == Rounded(latencies);
    assert queueSamples[..Min(|rows|, |queueSamples|)] == queueSamples;
  }

  lemma {:induction false} ColumnsOfPrefix(latencies: seq<real>, queueSamples: seq<nat>, rows: seq<Row>, k: nat)
    requires IsMerge(latencies, queueSamples, rows) && k <= |rows|
    ensures LatencyColumn(rows[..k]) == Rounded(latencies)[..Min(k, |latencies|)]
    ensures QueueColumn(rows[..k]) == queueSamples[..Min(k, |queueSamples|)]
  {
    if k > 0 {
      ColumnsOfPrefix(latencies, queueSamples, rows, k - 1);
      var row := rows[k - 1];
      assert IsMergedRow(latencies, queueSamples, k - 1, row);
      assert rows[..k][..k - 1] == rows[..k - 1];
      assert rows[..k][k - 1] == row;
      if k - 1 < |latencies| {
        assert Rounded(latencies)[..k] == Rounded(latencies)[..k - 1] + [Thousandths(latencies[k - 1])];
      }
      if k - 1 < |queueSamples| {
        assert queueSamples[..k] == queueSamples[..k - 1] + [queueSamples[k - 1]];
      }
    }
  }
}
