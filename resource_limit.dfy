/** collector/resource_limit.go: one row per resource limit, sent as three gauges that all
    carry the resource's name as their only label. */
module ResourceLimit {
  import opened Metric
  import opened Database
  import opened Probe

  const Subsystem := "resource_limit"

  const CurrentCount := Desc(BuildFQName(Namespace, Subsystem, "current_utilization"),
    "Current utilization of a resource limit.", ["resource_name"])
  const MaxCount := Desc(BuildFQName(Namespace, Subsystem, "max_utilization"),
    "Max utilization of a resource limit since startup.", ["resource_name"])
  const InitLimit := Desc(BuildFQName(Namespace, Subsystem, "init_limit"),
    "Configured resource limit in pfile or spfile.", ["resource_name"])

  /** The three families: `oracle_resource_limit_<suffix>`, all with the one label `resource_name`. */
  lemma Families()
    ensures CurrentCount.fqName == Namespace + "_" + Subsystem + "_" + "current_utilization"
    ensures MaxCount.fqName == Namespace + "_" + Subsystem + "_" + "max_utilization"
    ensures InitLimit.fqName == Namespace + "_" + Subsystem + "_" + "init_limit"
    ensures CurrentCount.variableLabels == MaxCount.variableLabels == InitLimit.variableLabels == ["resource_name"]
  {
  }

  /** A row scanned into `resName, curUtil, maxUtil, iLimit`. */
  datatype LimitRow = LimitRow(resName: string, curUtil: Value, maxUtil: Value, iLimit: Value)

  /** The three sends of one loop iteration. */
  function RowSamples(r: LimitRow): seq<Sample>
  {
    [ Gauge(CurrentCount, r.curUtil, [r.resName]),
      Gauge(MaxCount, r.maxUtil, [r.resName]),
      Gauge(InitLimit, r.iLimit, [r.resName]) ]
  }

  /** What `ScrapeResourceLimit` sends and returns for a given query outcome. */
  function ResourceLimits(q: QueryResult<LimitRow>): (o: Outcome)
    ensures q.QueryFailed? ==> o == Outcome([], Some(q.err))
    ensures o.err.None? <==> q.Rows? && forall j | 0 <= j < |q.rows| :: q.rows[j].Scanned?
  {
    QueryOutcome(q, RowSamples)
  }

  /** Every sample sent is a gauge of one of the three families with one label value. */
  lemma ResourceLimitsSamples(q: QueryResult<LimitRow>)
    ensures var o := ResourceLimits(q).emitted;
      forall i | 0 <= i < |o| ::
        o[i].desc in {CurrentCount, MaxCount, InitLimit} && o[i].valueType == GaugeValue && WellFormed(o[i])
  {
    if q.Rows? {
      RowsOutcomeAll(q.rows, RowSamples,
        (s: Sample) => s.desc in {CurrentCount, MaxCount, InitLimit} && s.valueType == GaugeValue && WellFormed(s));
    }
  }

  /** Every row scanned: nil, three samples per row, and row `k`'s samples are, in order,
      current utilization, max utilization and initial limit, valued by its columns 2 to 4
      and labelled with its column 1. */
  lemma ResourceLimitRows(rows: seq<Row<LimitRow>>, iterationErr: Option<Error>)
    requires forall j | 0 <= j < |rows| :: rows[j].Scanned?
    ensures ResourceLimits(Rows(rows, iterationErr)).err == None
    ensures |ResourceLimits(Rows(rows, iterationErr)).emitted| == 3 * |rows|
    ensures forall k | 0 <= k < |rows| ::
      var o, r := ResourceLimits(Rows(rows, iterationErr)).emitted, rows[k].value;
      && o[3 * k] == Gauge(CurrentCount, r.curUtil, [r.resName])
      && o[3 * k + 1] == Gauge(MaxCount, r.maxUtil, [r.resName])
      && o[3 * k + 2] == Gauge(InitLimit, r.iLimit, [r.resName])
  {
    var o := ResourceLimits(Rows(rows, iterationErr)).emitted;
    assert o == RowsOutcome(rows, RowSamples).emitted;
    RowsOutcomeLength(rows, RowSamples, 3);
    forall k | 0 <= k < |rows|
      ensures o[3 * k] == RowSamples(rows[k].value)[0]
      ensures o[3 * k + 1] == RowSamples(rows[k].value)[1]
      ensures o[3 * k + 2] == RowSamples(rows[k].value)[2]
    {
      RowsOutcomeSplit(rows, RowSamples, k);
      RowsOutcomeLength(rows[..k], RowSamples, 3);
      var pre := RowsOutcome(rows[..k], RowSamples).emitted;
      var post := RowsOutcome(rows[k + 1..], RowSamples).emitted;
      assert o == pre + RowSamples(rows[k].value) + post;
      assert |pre| == 3 * k;
    }
  }

  /** Row `k` is the first that fails to scan: its error is returned, the samples of the
      rows before it stay sent, and nothing of row `k` or later is sent. */
  lemma ResourceLimitScanFailure(rows: seq<Row<LimitRow>>, iterationErr: Option<Error>, k: nat)
    requires k < |rows| && rows[k].ScanFailed?
    requires forall j | 0 <= j < k :: rows[j].Scanned?
    ensures ResourceLimits(Rows(rows, iterationErr)) ==
      Outcome(ResourceLimits(Rows(rows[..k], None)).emitted, Some(rows[k].err))
    ensures |ResourceLimits(Rows(rows, iterationErr)).emitted| == 3 * k
  {
    RowsOutcomeStopsAt(rows, RowSamples, k);
    RowsOutcomeLength(rows[..k], RowSamples, 3);
  }

  /** `ScrapeResourceLimit`: runs the resource limit query and sends three gauges per row. */
  method ScrapeResourceLimit(q: QueryResult<LimitRow>, ch: Channel) returns (err: Option<Error>)
    modifies ch
    ensures ch.sent == old(ch.sent) + ResourceLimits(q).emitted
    ensures err == ResourceLimits(q).err
  {
    if q.QueryFailed? {
      return Some(q.err);
    }
    var rows := q.rows;
    var i := 0;
    while i < |rows|
      invariant 0 <= i <= |rows|
      invariant old(ch.sent) + RowsOutcome(rows, RowSamples).emitted == ch.sent + RowsOutcome(rows[i..], RowSamples).emitted
      invariant RowsOutcome(rows, RowSamples).err == RowsOutcome(rows[i..], RowSamples).err
    {
      RowsOutcomeFrom(rows, RowSamples, i);
      match rows[i] {
        case ScanFailed(e) =>
          return Some(e);
        case Scanned(r) =>
          ConcatAssoc(ch.sent, RowSamples(r), RowsOutcome(rows[i + 1..], RowSamples).emitted);
          SendRow(r, ch);
      }
      i := i + 1;
    }
    return None;
  }

  /** The body of the loop once `Scan` has filled `resName, curUtil, maxUtil, iLimit`:
      three sends, in source order. */
  method SendRow(r: LimitRow, ch: Channel)
    modifies ch
    ensures ch.sent == old(ch.sent) + RowSamples(r)
  {
    var resName, curUtil, maxUtil, iLimit := r.resName, r.curUtil, r.maxUtil, r.iLimit;
    ch.Send(Gauge(CurrentCount, curUtil, [resName]));
    ch.Send(Gauge(MaxCount, maxUtil, [resName]));
    ch.Send(Gauge(InitLimit, iLimit, [resName]));
  }
}
