/** collector/session_general.go: one `session_type`-labelled gauge per row of the session
    count query, then one unlabelled gauge from the active-user-session count. This is one
    of the two package-level `ScrapeUserSessionCount` functions of the collector package;
    the other is modelled in module Session. */
module SessionGeneral {
  import opened Metric
  import opened Database
  import opened Probe

  const Subsystem := "sessions"

  const SessionCount := Desc(BuildFQName(Namespace, Subsystem, "total"),
    "Number of sessions currently connected.", ["session_type"])
  const ActiveUserSessionCount := Desc(BuildFQName(Namespace, Subsystem, "active_user_total"),
    "Number of active user sessions.", [])

  /** The two families: `oracle_sessions_total` labelled by `session_type`, and the
      unlabelled `oracle_sessions_active_user_total`. */
  lemma Families()
    ensures SessionCount.fqName == Namespace + "_" + Subsystem + "_" + "total"
    ensures ActiveUserSessionCount.fqName == Namespace + "_" + Subsystem + "_" + "active_user_total"
    ensures SessionCount.variableLabels == ["session_type"] && ActiveUserSessionCount.variableLabels == []
  {
  }

  /** A row of the session count query scanned into `sessCntLable, sessCnt`. */
  datatype CountRow = CountRow(sessCntLable: string, sessCnt: Value)

  /** The send of one loop iteration. */
  function RowSamples(r: CountRow): seq<Sample>
  {
    [Gauge(SessionCount, r.sessCnt, [r.sessCntLable])]
  }

  /** The send after the active-user-session count has been scanned into `sessCnt`. */
  function ActiveSamples(sessCnt: Value): seq<Sample>
  {
    [Gauge(ActiveUserSessionCount, sessCnt, [])]
  }

  /** What `ScrapeUserSessionCount` sends and returns, given the outcome of its two queries. */
  function UserSessionCount(counts: QueryResult<CountRow>, active: SingleRow<Value>): (o: Outcome)
    ensures counts.QueryFailed? ==> o == Outcome([], Some(counts.err))
    ensures o.err.None? <==> counts.Rows? && active.Found? && forall j | 0 <= j < |counts.rows| :: counts.rows[j].Scanned?
  {
    AndThen(QueryOutcome(counts, RowSamples), SingleOutcome(active, ActiveSamples))
  }

  /** Every sample sent is a gauge of one of the two families, with as many label values as
      its family has labels. */
  lemma UserSessionCountSamples(counts: QueryResult<CountRow>, active: SingleRow<Value>)
    ensures var o := UserSessionCount(counts, active).emitted;
      forall i | 0 <= i < |o| ::
        o[i].desc in {SessionCount, ActiveUserSessionCount} && o[i].valueType == GaugeValue && WellFormed(o[i])
  {
    var P := (s: Sample) => s.desc in {SessionCount, ActiveUserSessionCount} && s.valueType == GaugeValue && WellFormed(s);
    if counts.Rows? {
      RowsOutcomeAll(counts.rows, RowSamples, P);
      var first := RowsOutcome(counts.rows, RowSamples).emitted;
      var next := SingleOutcome(active, ActiveSamples).emitted;
      forall i | 0 <= i < |first + next| ensures P((first + next)[i]) {
        if i >= |first| {
          assert (first + next)[i] == next[i - |first|];
        }
      }
    }
  }

  /** Both queries succeed: one sample per row, `oracle_sessions_total` labelled by the
      row's first column and valued by its second, then the unlabelled active-user total
      as the last of `rows + 1` samples. */
  lemma UserSessionCountSuccess(rows: seq<Row<CountRow>>, iterationErr: Option<Error>, sessCnt: Value)
    requires forall j | 0 <= j < |rows| :: rows[j].Scanned?
    ensures var o := UserSessionCount(Rows(rows, iterationErr), Found(sessCnt));
      && o.err == None
      && |o.emitted| == |rows| + 1
      && (forall k | 0 <= k < |rows| ::
            o.emitted[k] == Gauge(SessionCount, rows[k].value.sessCnt, [rows[k].value.sessCntLable]))
      && o.emitted[|rows|] == Gauge(ActiveUserSessionCount, sessCnt, [])
  {
    var o := UserSessionCount(Rows(rows, iterationErr), Found(sessCnt)).emitted;
    var e := RowsOutcome(rows, RowSamples).emitted;
    assert o == e + ActiveSamples(sessCnt);
    RowsOutcomeLength(rows, RowSamples, 1);
    forall k | 0 <= k < |rows|
      ensures e[k] == RowSamples(rows[k].value)[0]
    {
      RowsOutcomeSplit(rows, RowSamples, k);
      RowsOutcomeLength(rows[..k], RowSamples, 1);
    }
  }

  /** The row loop succeeds but the active-count query fails (no row included): its error
      is returned after every row's sample has been sent, and the active total is not. */
  lemma ActiveCountFailure(rows: seq<Row<CountRow>>, iterationErr: Option<Error>, e: Error)
    requires forall j | 0 <= j < |rows| :: rows[j].Scanned?
    ensures UserSessionCount(Rows(rows, iterationErr), NotScanned(e)) ==
      Outcome(RowsOutcome(rows, RowSamples).emitted, Some(e))
    ensures |UserSessionCount(Rows(rows, iterationErr), NotScanned(e)).emitted| == |rows|
  {
    RowsOutcomeLength(rows, RowSamples, 1);
    assert RowsOutcome(rows, RowSamples).emitted + [] == RowsOutcome(rows, RowSamples).emitted;
  }

  /** Row `k` is the first that fails to scan: its error is returned, the samples of the
      rows before it stay sent, and the active-count query is not reached. */
  lemma UserSessionCountScanFailure(rows: seq<Row<CountRow>>, iterationErr: Option<Error>, active: SingleRow<Value>, k: nat)
    requires k < |rows| && rows[k].ScanFailed?
    requires forall j | 0 <= j < k :: rows[j].Scanned?
    ensures UserSessionCount(Rows(rows, iterationErr), active) ==
      Outcome(RowsOutcome(rows[..k], RowSamples).emitted, Some(rows[k].err))
    ensures |UserSessionCount(Rows(rows, iterationErr), active).emitted| == k
  {
    RowsOutcomeStopsAt(rows, RowSamples, k);
    RowsOutcomeLength(rows[..k], RowSamples, 1);
  }

  /** `ScrapeUserSessionCount` of collector/session_general.go. */
  method ScrapeUserSessionCount(counts: QueryResult<CountRow>, active: SingleRow<Value>, ch: Channel)
    returns (err: Option<Error>)
    modifies ch
    ensures ch.sent == old(ch.sent) + UserSessionCount(counts, active).emitted
    ensures err == UserSessionCount(counts, active).err
  {
    if counts.QueryFailed? {
      return Some(counts.err);
    }
    err := SendCounts(counts.rows, ch);
    if err.Some? {
      return;
    }
    match active {
      case NotScanned(e) =>
        assert ch.sent + [] == ch.sent;
        return Some(e);
      case Found(sessCnt) =>
        ch.Send(Gauge(ActiveUserSessionCount, sessCnt, []));
        return None;
    }
  }

  /** The `for rows.Next()` loop of `ScrapeUserSessionCount`: one labelled gauge per row. */
  method SendCounts(rows: seq<Row<CountRow>>, ch: Channel) returns (err: Option<Error>)
    modifies ch
    ensures ch.sent == old(ch.sent) + RowsOutcome(rows, RowSamples).emitted
    ensures err == RowsOutcome(rows, RowSamples).err
  {
    var i := 0;
    while i < |rows|
      invariant 0 <= i <= |rows|
      invariant old(ch.sent) + RowsOutcome(rows, RowSamples).emitted == ch.sent + RowsOutcome(rows[i..], RowSamples).emitted
      invariant RowsOutcome(rows, RowSamples).err == RowsOutcome(rows[i..], RowSamples).err
    {
      RowsOutcomeFrom(rows, RowSamples, i);
      match rows[i] {
        case ScanFailed(e) =>
          return Some(e);
        case Scanned(r) =>
          ConcatAssoc(ch.sent, RowSamples(r), RowsOutcome(rows[i + 1..], RowSamples).emitted);
          var sessCntLable, sessCnt := r.sessCntLable, r.sessCnt;
          ch.Send(Gauge(SessionCount, sessCnt, [sessCntLable]));
      }
      i := i + 1;
    }
    return None;
  }
}
