/** collector/tablespaces.go: one usage row per tablespace, sent as four gauges that all
    carry the tablespace's name as their only label. */
module Tablespaces {
  import opened Metric
  import opened Database
  import opened Probe

  const Subsystem := "tablespaces"

  const SizeBytes := Desc(BuildFQName(Namespace, Subsystem, "size_bytes"),
    "Tablespace size in Bytes.", ["tablespace_name"])
  const FreeBytes := Desc(BuildFQName(Namespace, Subsystem, "free_bytes"),
    "Tablespace free space in Bytes.", ["tablespace_name"])
  const MaxSizeBytes := Desc(BuildFQName(Namespace, Subsystem, "max_size_bytes"),
    "Tablespace maximum size in Bytes. Maxsize is the limit of autoextend config. If autoextend is disabled then max_size_bytes = size_bytes.",
    ["tablespace_name"])
  const MaxFreeBytes := Desc(BuildFQName(Namespace, Subsystem, "max_free_bytes"),
    "Tablespace maximum free space in Bytes. Maxsize is the limit of autoexend config. If autoextend is disabled then max_size_bytes = size_bytes.",
    ["tablespace_name"])

  /** The four families: `oracle_tablespaces_<suffix>`, all with the one label `tablespace_name`. */
  lemma Families()
    ensures SizeBytes.fqName == Namespace + "_" + Subsystem + "_" + "size_bytes"
    ensures FreeBytes.fqName == Namespace + "_" + Subsystem + "_" + "free_bytes"
    ensures MaxSizeBytes.fqName == Namespace + "_" + Subsystem + "_" + "max_size_bytes"
    ensures MaxFreeBytes.fqName == Namespace + "_" + Subsystem + "_" + "max_free_bytes"
    ensures SizeBytes.variableLabels == FreeBytes.variableLabels == ["tablespace_name"]
    ensures MaxSizeBytes.variableLabels == MaxFreeBytes.variableLabels == ["tablespace_name"]
  {
  }

  /** A usage row scanned into `tbsName, sizeBytes, freeBytes, maxSizeBytes, maxSizeFreeBytes`. */
  datatype UsageRow = UsageRow(tbsName: string, sizeBytes: Value, freeBytes: Value,
                               maxSizeBytes: Value, maxSizeFreeBytes: Value)

  /** The four sends of one loop iteration. */
  function RowSamples(r: UsageRow): seq<Sample>
  {
    [ Gauge(SizeBytes, r.sizeBytes, [r.tbsName]),
      Gauge(FreeBytes, r.freeBytes, [r.tbsName]),
      Gauge(MaxSizeBytes, r.maxSizeBytes, [r.tbsName]),
      Gauge(MaxFreeBytes, r.maxSizeFreeBytes, [r.tbsName]) ]
  }

  /** What `ScrapeTablespaceUsage` sends and returns for a given query outcome. */
  function TablespaceUsage(q: QueryResult<UsageRow>): (o: Outcome)
    ensures q.QueryFailed? ==> o == Outcome([], Some(q.err))
    ensures o.err.None? <==> q.Rows? && forall j | 0 <= j < |q.rows| :: q.rows[j].Scanned?
  {
    QueryOutcome(q, RowSamples)
  }

  /** Every sample sent is a gauge of one of the four families, with one label value, and
      that value is the name of a tablespace the query returned. */
  lemma TablespaceUsageSamples(q: QueryResult<UsageRow>)
    ensures var o := TablespaceUsage(q).emitted;
      forall i | 0 <= i < |o| ::
        && o[i].desc in {SizeBytes, FreeBytes, MaxSizeBytes, MaxFreeBytes}
        && o[i].valueType == GaugeValue
        && WellFormed(o[i])
        && |o[i].labelValues| == 1
        && o[i].labelValues[0] in TablespaceNames(q)
  {
    if q.Rows? {
      RowsOutcomeAll(q.rows, RowSamples,
        (s: Sample) => s.desc in {SizeBytes, FreeBytes, MaxSizeBytes, MaxFreeBytes} && s.valueType == GaugeValue && WellFormed(s));
      NamesFromRows(q.rows);
    }
  }

  /** The tablespace names of the rows that scanned. */
  function TablespaceNames(q: QueryResult<UsageRow>): set<string>
  {
    if q.QueryFailed? then {} else set j | 0 <= j < |q.rows| && q.rows[j].Scanned? :: q.rows[j].value.tbsName
  }

  lemma {:induction false} NamesFromRows(rows: seq<Row<UsageRow>>)
    ensures forall i | 0 <= i < |RowsOutcome(rows, RowSamples).emitted| ::
      |RowsOutcome(rows, RowSamples).emitted[i].labelValues| == 1 &&
      RowsOutcome(rows, RowSamples).emitted[i].labelValues[0] in TablespaceNames(Rows(rows, None))
  {
    if rows != [] && rows[0].Scanned? {
      NamesFromRows(rows[1..]);
      var head: seq<Sample> := RowSamples(rows[0].value);
      var tail: seq<Sample> := RowsOutcome(rows[1..], RowSamples).emitted;
      assert TablespaceNames(Rows(rows[1..], None)) <= TablespaceNames(Rows(rows, None)) by {
        forall n | n in TablespaceNames(Rows(rows[1..], None)) ensures n in TablespaceNames(Rows(rows, None)) {
          var j :| 0 <= j < |rows[1..]| && rows[1..][j].Scanned? && rows[1..][j].value.tbsName == n;
          assert rows[j + 1] == rows[1..][j];
        }
      }
      assert rows[0].value.tbsName in TablespaceNames(Rows(rows, None));
      forall i | 0 <= i < |head + tail|
        ensures |(head + tail)[i].labelValues| == 1 && (head + tail)[i].labelValues[0] in TablespaceNames(Rows(rows, None))
      {
        if i >= |head| {
          assert (head + tail)[i] == tail[i - |head|];
        }
      }
    }
  }

  /** Every row scanned: nil, four samples per row, and row `k`'s samples are, in order,
      size, free, max size and max free, valued by its columns 2 to 5 and labelled with
      its column 1. */
  lemma TablespaceUsageRows(rows: seq<Row<UsageRow>>, iterationErr: Option<Error>)
    requires forall j | 0 <= j < |rows| :: rows[j].Scanned?
    ensures TablespaceUsage(Rows(rows, iterationErr)).err == None
    ensures |TablespaceUsage(Rows(rows, iterationErr)).emitted| == 4 * |rows|
    ensures forall k | 0 <= k < |rows| ::
      var o, r := TablespaceUsage(Rows(rows, iterationErr)).emitted, rows[k].value;
      && o[4 * k] == Gauge(SizeBytes, r.sizeBytes, [r.tbsName])
      && o[4 * k + 1] == Gauge(FreeBytes, r.freeBytes, [r.tbsName])
      && o[4 * k + 2] == Gauge(MaxSizeBytes, r.maxSizeBytes, [r.tbsName])
      && o[4 * k + 3] == Gauge(MaxFreeBytes, r.maxSizeFreeBytes, [r.tbsName])
  {
    var o := TablespaceUsage(Rows(rows, iterationErr)).emitted;
    assert o == RowsOutcome(rows, RowSamples).emitted;
    RowsOutcomeLength(rows, RowSamples, 4);
    forall k | 0 <= k < |rows|
      ensures o[4 * k] == RowSamples(rows[k].value)[0]
      ensures o[4 * k + 1] == RowSamples(rows[k].value)[1]
      ensures o[4 * k + 2] == RowSamples(rows[k].value)[2]
      ensures o[4 * k + 3] == RowSamples(rows[k].value)[3]
    {
      RowsOutcomeSplit(rows, RowSamples, k);
      RowsOutcomeLength(rows[..k], RowSamples, 4);
      var pre := RowsOutcome(rows[..k], RowSamples).emitted;
      var post := RowsOutcome(rows[k + 1..], RowSamples).emitted;
      assert o == pre + RowSamples(rows[k].value) + post;
      assert |pre| == 4 * k;
    }
  }

  /** Row `k` is the first that fails to scan: its error is returned, the samples of the
      rows before it stay sent, and nothing of row `k` or later is sent. */
  lemma TablespaceUsageScanFailure(rows: seq<Row<UsageRow>>, iterationErr: Option<Error>, k: nat)
    requires k < |rows| && rows[k].ScanFailed?
    requires forall j | 0 <= j < k :: rows[j].Scanned?
    ensures TablespaceUsage(Rows(rows, iterationErr)) ==
      Outcome(TablespaceUsage(Rows(rows[..k], None)).emitted, Some(rows[k].err))
    ensures |TablespaceUsage(Rows(rows, iterationErr)).emitted| == 4 * k
  {
    RowsOutcomeStopsAt(rows, RowSamples, k);
    RowsOutcomeLength(rows[..k], RowSamples, 4);
  }

  /** `ScrapeTablespaceUsage`: runs the usage query and sends four gauges per row. */
  method ScrapeTablespaceUsage(q: QueryResult<UsageRow>, ch: Channel) returns (err: Option<Error>)
    modifies ch
    ensures ch.sent == old(ch.sent) + TablespaceUsage(q).emitted
    ensures err == TablespaceUsage(q).err
  {
    if q.QueryFailed? {
      return Some(q.err);
    }
    var rows := q.rows;
    var i := 0;
    while i < |rows|
      invariant 0 <= i <= |rows|
      invariant old(ch.sent) + RowsOutcome(rows, RowSamples).emitted == ch.sent + RowsOutcome(rows[i..], RowSamples).emitted
      invariant RowsOutcome(rows, RowSamples).err == RowsOutcome(rows[i..], RowSamples).err
    {
      RowsOutcomeFrom(rows, RowSamples, i);
      match rows[i] {
        case ScanFailed(e) =>
          return Some(e);
        case Scanned(r) =>
          ConcatAssoc(ch.sent, RowSamples(r), RowsOutcome(rows[i + 1..], RowSamples).emitted);
          SendRow(r, ch);
      }
      i := i + 1;
    }
    return None;
  }

  /** The body of the loop once `Scan` has filled `tbsName, sizeBytes, freeBytes,
      maxSizeBytes, maxSizeFreeBytes`: four sends, in source order. */
  method SendRow(r: UsageRow, ch: Channel)
    modifies ch
    ensures ch.sent == old(ch.sent) + RowSamples(r)
  {
    var tbsName, sizeBytes, freeBytes, maxSizeBytes, maxSizeFreeBytes :=
      r.tbsName, r.sizeBytes, r.freeBytes, r.maxSizeBytes, r.maxSizeFreeBytes;
    ch.Send(Gauge(SizeBytes, sizeBytes, [tbsName]));
    ch.Send(Gauge(FreeBytes, freeBytes, [tbsName]));
    ch.Send(Gauge(MaxSizeBytes, maxSizeBytes, [tbsName]));
    ch.Send(Gauge(MaxFreeBytes, maxSizeFreeBytes, [tbsName]));
  }
}
