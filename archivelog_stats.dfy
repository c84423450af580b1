/** collector/archivelog_stats.go: one gauge per row of the unpivoted archivelog query,
    each in a family whose name comes from the row itself, then the average completion
    time as one unlabelled gauge. */
module Archivelogs {
  import opened Metric
  import opened Database
  import opened Probe

  const Subsystem := "archivelog_stats"

  /** The descriptor built inside the loop from the scanned `metricName`. */
  function DetailDesc(metricName: string): Desc
  {
    Desc(BuildFQName(Namespace, Subsystem, metricName), "Details about archivelogs in the last hour.", ["inst_id"])
  }

  const CompletionAvgTime := Desc(BuildFQName(Namespace, Subsystem, "completion_avg_time_ms"),
    "Average archive completion time of last 5 archivelogs.", [])

  /** A detail family is `oracle_archivelog_stats_<metricName>` with the one label
      `inst_id`; distinct names give distinct families, and an empty name gives the empty
      fully-qualified name. */
  lemma DetailFamilies(a: string, b: string)
    ensures a != "" ==> DetailDesc(a).fqName == Namespace + "_" + Subsystem + "_" + a
    ensures a == "" ==> DetailDesc(a).fqName == ""
    ensures a != "" && b != "" ==> (DetailDesc(a).fqName == DetailDesc(b).fqName <==> a == b)
    ensures DetailDesc(a).variableLabels == ["inst_id"]
  {
    if a != "" && b != "" {
      BuildFQNameInjective(Namespace, Subsystem, a, b);
    }
  }

  /** The completion family `oracle_archivelog_stats_completion_avg_time_ms`, unlabelled. */
  lemma CompletionFamily()
    ensures CompletionAvgTime.fqName == Namespace + "_" + Subsystem + "_" + "completion_avg_time_ms"
    ensures CompletionAvgTime.variableLabels == []
  {
  }

  /** A detail row scanned into `instID, metricName, metricValue`. */
  datatype DetailRow = DetailRow(instId: string, metricName: string, metricValue: Value)

  /** The completion row scanned into `instID, metricValue`. */
  datatype CompletionRow = CompletionRow(instId: string, avgTimeMs: Value)

  /** The send of one loop iteration. */
  function DetailSamples(r: DetailRow): seq<Sample>
  {
    [Gauge(DetailDesc(r.metricName), r.metricValue, [r.instId])]
  }

  /** The send after the completion row has been scanned; its instance id is dropped. */
  function CompletionSamples(c: CompletionRow): seq<Sample>
  {
    [Gauge(CompletionAvgTime, c.avgTimeMs, [])]
  }

  /** A gauge that is either the completion average or a detail carrying one `inst_id` label. */
  predicate ArchivelogSample(s: Sample)
  {
    && (s.desc == CompletionAvgTime || s.desc.variableLabels == ["inst_id"])
    && s.valueType == GaugeValue
    && WellFormed(s)
  }

  /** What `ScrapeArchivelogs` sends and returns, given the outcome of its two queries. */
  function Archivelogs(details: QueryResult<DetailRow>, completion: SingleRow<CompletionRow>): (o: Outcome)
    ensures details.QueryFailed? ==> o == Outcome([], Some(details.err))
    ensures o.err.None? <==> details.Rows? && completion.Found? && forall j | 0 <= j < |details.rows| :: details.rows[j].Scanned?
  {
    AndThen(QueryOutcome(details, DetailSamples), SingleOutcome(completion, CompletionSamples))
  }

  /** Every sample sent is a gauge, either the completion average or a detail sample with
      the one label `inst_id`, and always with one label value per label. */
  lemma ArchivelogsSamples(details: QueryResult<DetailRow>, completion: SingleRow<CompletionRow>)
    ensures var o := Archivelogs(details, completion).emitted;
      forall i | 0 <= i < |o| :: ArchivelogSample(o[i])
  {
    if details.Rows? {
      RowsOutcomeAll(details.rows, DetailSamples, ArchivelogSample);
      var first := RowsOutcome(details.rows, DetailSamples).emitted;
      var next := SingleOutcome(completion, CompletionSamples).emitted;
      forall i | 0 <= i < |first + next| ensures ArchivelogSample((first + next)[i]) {
        if i >= |first| {
          assert (first + next)[i] == next[i - |first|];
        }
      }
    }
  }

  /** Both queries succeed: row `k` gives a gauge in the family named by its metric name,
      labelled with its instance id and valued by its metric value; the completion average
      comes last, as sample `|rows|` of `|rows| + 1`. */
  lemma ArchivelogsSuccess(rows: seq<Row<DetailRow>>, iterationErr: Option<Error>, c: CompletionRow)
    requires forall j | 0 <= j < |rows| :: rows[j].Scanned?
    ensures var o := Archivelogs(Rows(rows, iterationErr), Found(c));
      && o.err == None
      && |o.emitted| == |rows| + 1
      && (forall k | 0 <= k < |rows| ::
            o.emitted[k] == Gauge(DetailDesc(rows[k].value.metricName), rows[k].value.metricValue, [rows[k].value.instId]))
      && o.emitted[|rows|] == Gauge(CompletionAvgTime, c.avgTimeMs, [])
  {
    var o := Archivelogs(Rows(rows, iterationErr), Found(c)).emitted;
    var e := RowsOutcome(rows, DetailSamples).emitted;
    assert o == e + CompletionSamples(c);
    RowsOutcomeLength(rows, DetailSamples, 1);
    forall k | 0 <= k < |rows|
      ensures e[k] == DetailSamples(rows[k].value)[0]
    {
      RowsOutcomeSplit(rows, DetailSamples, k);
      RowsOutcomeLength(rows[..k], DetailSamples, 1);
    }
  }

  /** The detail loop succeeds but the completion query fails: its error is returned after
      every detail sample has been sent, and no completion sample is. */
  lemma CompletionFailure(rows: seq<Row<DetailRow>>, iterationErr: Option<Error>, e: Error)
    requires forall j | 0 <= j < |rows| :: rows[j].Scanned?
    ensures Archivelogs(Rows(rows, iterationErr), NotScanned(e)) ==
      Outcome(RowsOutcome(rows, DetailSamples).emitted, Some(e))
    ensures |Archivelogs(Rows(rows, iterationErr), NotScanned(e)).emitted| == |rows|
  {
    RowsOutcomeLength(rows, DetailSamples, 1);
    assert RowsOutcome(rows, DetailSamples).emitted + [] == RowsOutcome(rows, DetailSamples).emitted;
  }

  /** Detail row `k` is the first that fails to scan: its error is returned, the samples of
      the rows before it stay sent, and the completion query is not reached. */
  lemma ArchivelogsScanFailure(rows: seq<Row<DetailRow>>, iterationErr: Option<Error>, completion: SingleRow<CompletionRow>, k: nat)
    requires k < |rows| && rows[k].ScanFailed?
    requires forall j | 0 <= j < k :: rows[j].Scanned?
    ensures Archivelogs(Rows(rows, iterationErr), completion) ==
      Outcome(RowsOutcome(rows[..k], DetailSamples).emitted, Some(rows[k].err))
    ensures |Archivelogs(Rows(rows, iterationErr), completion).emitted| == k
  {
    RowsOutcomeStopsAt(rows, DetailSamples, k);
    RowsOutcomeLength(rows[..k], DetailSamples, 1);
  }

  /** `ScrapeArchivelogs` of collector/archivelog_stats.go. The completion row is scanned
      into the `instID, metricValue` variables the loop used. */
  method ScrapeArchivelogs(details: QueryResult<DetailRow>, completion: SingleRow<CompletionRow>, ch: Channel)
    returns (err: Option<Error>)
    modifies ch
    ensures ch.sent == old(ch.sent) + Archivelogs(details, completion).emitted
    ensures err == Archivelogs(details, completion).err
  {
    if details.QueryFailed? {
      return Some(details.err);
    }
    err := SendDetails(details.rows, ch);
    if err.Some? {
      return;
    }
    match completion {
      case NotScanned(e) =>
        assert ch.sent + [] == ch.sent;
        return Some(e);
      case Found(c) =>
        var instID, metricValue := c.instId, c.avgTimeMs;
        ch.Send(Gauge(CompletionAvgTime, metricValue, []));
        return None;
    }
  }

  /** The `for archRows.Next()` loop: a descriptor built from each row's metric name, and
      one gauge labelled with the row's instance id. */
  method SendDetails(rows: seq<Row<DetailRow>>, ch: Channel) returns (err: Option<Error>)
    modifies ch
    ensures ch.sent == old(ch.sent) + RowsOutcome(rows, DetailSamples).emitted
    ensures err == RowsOutcome(rows, DetailSamples).err
  {
    var i := 0;
    while i < |rows|
      invariant 0 <= i <= |rows|
      invariant old(ch.sent) + RowsOutcome(rows, DetailSamples).emitted == ch.sent + RowsOutcome(rows[i..], DetailSamples).emitted
      invariant RowsOutcome(rows, DetailSamples).err == RowsOutcome(rows[i..], DetailSamples).err
    {
      RowsOutcomeFrom(rows, DetailSamples, i);
      match rows[i] {
        case ScanFailed(e) =>
          return Some(e);
        case Scanned(r) =>
          ConcatAssoc(ch.sent, DetailSamples(r), RowsOutcome(rows[i + 1..], DetailSamples).emitted);
          var instID, metricName, metricValue := r.instId, r.metricName, r.metricValue;
          var archDetails := DetailDesc(metricName);
          ch.Send(Gauge(archDetails, metricValue, [instID]));
      }
      i := i + 1;
    }
    return None;
  }
}
