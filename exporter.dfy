/** oracle_exporter.go: the exporter that, on every collection, runs the enabled probes
    against the database and then reports on itself: how long the last scrape took, how
    many scrapes there were, how many of them each probe failed, whether the last scrape
    ended in error, and whether the database answered. */
module Exporter {
  import opened Metric
  import opened Database
  import opened Probe
  import Session
  import SessionGeneral
  import Tablespaces

  const Subsystem := "exporter"

  const Duration := Desc(BuildFQName(Namespace, Subsystem, "last_scrape_duration_seconds"),
    "Duration of the last scrape of metrics from Oracle.", [])
  const TotalScrapes := Desc(BuildFQName(Namespace, Subsystem, "scrapes_total"),
    "Total number of times Oracle was scraped for metrics.", [])
  const ScrapeErrors := Desc(BuildFQName(Namespace, Subsystem, "scrape_errors_total"),
    "Total number of times an error occurred scraping a Oracle.", ["collector"])
  const LastError := Desc(BuildFQName(Namespace, Subsystem, "last_scrape_error"),
    "Whether the last scrape of metrics from Oracle resulted in an error (1 for error, 0 for success).", [])
  const Up := Desc(BuildFQName(Namespace, "", "up"), "Whether the OracleSQL server is up.", [])

  /** The exporter's own families: four under `oracle_exporter_`, with only the error
      counter labelled (by `collector`), and `oracle_up`, which has no subsystem. */
  lemma Families()
    ensures Duration.fqName == Namespace + "_" + Subsystem + "_" + "last_scrape_duration_seconds"
    ensures TotalScrapes.fqName == Namespace + "_" + Subsystem + "_" + "scrapes_total"
    ensures ScrapeErrors.fqName == Namespace + "_" + Subsystem + "_" + "scrape_errors_total"
    ensures LastError.fqName == Namespace + "_" + Subsystem + "_" + "last_scrape_error"
    ensures Up.fqName == Namespace + "_" + "up"
    ensures ScrapeErrors.variableLabels == ["collector"]
    ensures Duration.variableLabels == TotalScrapes.variableLabels == LastError.variableLabels == Up.variableLabels == []
  {
  }

  /** The `collector` label values of the error counter. */
  const SessionLabel := "collect.session.general"
  const TablespaceLabel := "collect.tablespace.usage"

  lemma LabelsDistinct()
    ensures SessionLabel != TablespaceLabel
  {
    assert SessionLabel[8] != TablespaceLabel[8];
  }

  /** The sample a counter sends on the channel when it is collected: its value at that moment. */
  function Counter(desc: Desc, value: Value, labelValues: seq<string>): Sample
  {
    Sample(desc, CounterValue, value, labelValues)
  }

  /** The value of the `scrape_errors_total` child for `collector`; a child that was never
      incremented does not exist and reads as zero. */
  function Count(errors: map<string, nat>, collector: string): nat
  {
    if collector in errors then errors[collector] else 0
  }

  /** `scrapeErrors.WithLabelValues(collector).Inc()`: creates the child on first use. */
  function Inc(errors: map<string, nat>, collector: string): (r: map<string, nat>)
    ensures r.Keys == errors.Keys + {collector}
    ensures Count(r, collector) == Count(errors, collector) + 1
    ensures forall l | l != collector :: Count(r, l) == Count(errors, l)
  {
    errors[collector := Count(errors, collector) + 1]
  }

  /** Which of the two package-level `ScrapeUserSessionCount` functions the session
      probe call reaches (collector/session.go or collector/session_general.go). */
  datatype SessionProbe = UserSessionCounts | SessionTypeCounts

  /** The command-line flags that gate the probes (both default to true), plus the
      choice of session probe. */
  datatype Config = Config(collectSessionGeneral: bool, collectTablespaceUsage: bool, sessionProbe: SessionProbe)

  /** The database during one scrape, as the outcomes of every call made on it:
      `sql.Open`, the `up` query, and the queries of each probe. */
  datatype Db = Db(
    openErr: Option<Error>,
    upErr: Option<Error>,
    userSessions: SingleRow<Session.UserCounts>,
    systemSessions: SingleRow<Value>,
    sessionCounts: QueryResult<SessionGeneral.CountRow>,
    activeUserSessions: SingleRow<Value>,
    tablespaces: QueryResult<Tablespaces.UsageRow>)

  /** What the session probe sends and returns. */
  function SessionOutcome(db: Db, cfg: Config): (o: Outcome)
    ensures cfg.sessionProbe == UserSessionCounts ==>
      (o.err.None? <==> db.userSessions.Found? && db.systemSessions.Found?)
    ensures cfg.sessionProbe == SessionTypeCounts ==>
      (o.err.None? <==> db.sessionCounts.Rows? && db.activeUserSessions.Found? &&
                         forall j | 0 <= j < |db.sessionCounts.rows| :: db.sessionCounts.rows[j].Scanned?)
  {
    match cfg.sessionProbe
    case UserSessionCounts => Session.UserSessionCount(db.userSessions, db.systemSessions)
    case SessionTypeCounts => SessionGeneral.UserSessionCount(db.sessionCounts, db.activeUserSessions)
  }

  /** What the calls of one scrape return: `sql.Open`, the `up` query, and the two
      probes (what each would send and return if it ran). */
  datatype Run = Run(openErr: Option<Error>, upErr: Option<Error>, session: Outcome, tablespace: Outcome)

  /** The calls of a scrape of `db` under `cfg`. */
  function Calls(db: Db, cfg: Config): (r: Run)
    ensures r.openErr == db.openErr && r.upErr == db.upErr
    ensures r.tablespace.err.None? <==>
      db.tablespaces.Rows? && forall j | 0 <= j < |db.tablespaces.rows| :: db.tablespaces.rows[j].Scanned?
    ensures db.tablespaces.QueryFailed? ==> r.tablespace == Outcome([], Some(db.tablespaces.err))
  {
    Run(db.openErr, db.upErr, SessionOutcome(db, cfg), Tablespaces.TablespaceUsage(db.tablespaces))
  }

  /** The exporter's own metrics: the values of its gauges and counters. */
  datatype SelfMetrics = SelfMetrics(
    duration: Value,
    error: Value,
    totalScrapes: nat,
    scrapeErrors: map<string, nat>,
    oracleUp: Value)

  /** The metrics of a new exporter: every gauge and counter zero, no error counter child. */
  const Initial := SelfMetrics(0.0, 0.0, 0, map[], 0.0)

  /** What one scrape leaves behind: the new self-metrics, the probes' samples in the order
      sent, and the final value of `err` that the deferred function reads. */
  datatype ScrapeResult = ScrapeResult(metrics: SelfMetrics, emitted: seq<Sample>, err: Option<Error>)

  /** The probes' part of a scrape: error counters, samples so far and the last `err`. */
  datatype Progress = Progress(errors: map<string, nat>, emitted: seq<Sample>, err: Option<Error>)

  /** `if *flag { if err = probe(db, ch); err != nil { ...Inc() } }` */
  function RunProbe(p: Progress, enabled: bool, collector: string, o: Outcome): (r: Progress)
    ensures !enabled ==> r == p
    ensures enabled ==> r.err == o.err && r.emitted == p.emitted + o.emitted
    ensures Count(r.errors, collector) == Count(p.errors, collector) + (if enabled && o.err.Some? then 1 else 0)
    ensures forall l | l != collector :: Count(r.errors, l) == Count(p.errors, l)
  {
    if !enabled then p
    else Progress(if o.err.Some? then Inc(p.errors, collector) else p.errors, p.emitted + o.emitted, o.err)
  }

  /** The two gated probe calls, from the error counters `errors` and `err == nil`. */
  function RunProbes(errors: map<string, nat>, run: Run, cfg: Config): (r: Progress)
    ensures r.emitted ==
      (if cfg.collectSessionGeneral then run.session.emitted else []) +
      (if cfg.collectTablespaceUsage then run.tablespace.emitted else [])
    ensures r.err ==
      if cfg.collectTablespaceUsage then run.tablespace.err
      else if cfg.collectSessionGeneral then run.session.err
      else None
  {
    var p := RunProbe(Progress(errors, [], None), cfg.collectSessionGeneral, SessionLabel, run.session);
    RunProbe(p, cfg.collectTablespaceUsage, TablespaceLabel, run.tablespace)
  }

  /** The body of `scrape` up to its last statement, on the metrics after `totalScrapes.Inc()`. */
  function ScrapeBody(m: SelfMetrics, run: Run, cfg: Config): (r: ScrapeResult)
    ensures r.metrics.totalScrapes == m.totalScrapes && r.metrics.duration == m.duration && r.metrics.error == m.error
    ensures run.openErr.Some? || run.upErr.Some? ==> r.emitted == [] && r.err.Some? && r.metrics.scrapeErrors == m.scrapeErrors
    ensures run.openErr.Some? ==> r.metrics.oracleUp == m.oracleUp
    ensures run.openErr.None? ==> r.metrics.oracleUp == if run.upErr.Some? then 0.0 else 1.0
  {
    if run.openErr.Some? then ScrapeResult(m, [], run.openErr)
    else if run.upErr.Some? then ScrapeResult(m.(oracleUp := 0.0), [], run.upErr)
    else
      var p := RunProbes(m.scrapeErrors, run, cfg);
      ScrapeResult(m.(oracleUp := 1.0, scrapeErrors := p.errors), p.emitted, p.err)
  }

  /** One call of `scrape`, with `elapsed` the seconds `time.Since(begun)` measures. */
  function ScrapeStep(m: SelfMetrics, run: Run, cfg: Config, elapsed: Value): (r: ScrapeResult)
    ensures r.metrics.totalScrapes == m.totalScrapes + 1
    ensures r.metrics.duration == elapsed
    ensures r.metrics.error == 1.0 <==> r.err.Some?
    ensures r.metrics.error == 0.0 <==> r.err.None?
  {
    var b := ScrapeBody(m.(totalScrapes := m.totalScrapes + 1), run, cfg);
    ScrapeResult(b.metrics.(duration := elapsed, error := if b.err.None? then 0.0 else 1.0), b.emitted, b.err)
  }

  /** The values assigned to `err` during a scrape, in order: by `sql.Open`, by the `up`
      query, then by each enabled probe. */
  function ErrAssignments(run: Run, cfg: Config): (s: seq<Option<Error>>)
    ensures |s| >= 1
  {
    [run.openErr] +
    if run.openErr.Some? then []
    else
      [run.upErr] +
      if run.upErr.Some? then []
      else
        (if cfg.collectSessionGeneral then [run.session.err] else []) +
        (if cfg.collectTablespaceUsage then [run.tablespace.err] else [])
  }

  /** `last_scrape_error` reflects the last value assigned to `err`, not whether any step
      failed: a failing probe followed by a succeeding one leaves it at 0. */
  lemma {:induction false} ErrorIsLastAssignment(m: SelfMetrics, run: Run, cfg: Config, elapsed: Value)
    ensures var s := ErrAssignments(run, cfg);
      ScrapeStep(m, run, cfg, elapsed).err == s[|s| - 1]
    ensures ScrapeStep(m, run, cfg, elapsed).metrics.error == if ErrAssignments(run, cfg)[|ErrAssignments(run, cfg)| - 1].None? then 0.0 else 1.0
  {
    var s := ErrAssignments(run, cfg);
    if run.openErr.None? && run.upErr.None? {
      var sess: seq<Option<Error>> := if cfg.collectSessionGeneral then [run.session.err] else [];
      var tbs: seq<Option<Error>> := if cfg.collectTablespaceUsage then [run.tablespace.err] else [];
      assert s == [run.openErr] + ([run.upErr] + (sess + tbs));
      assert s == [run.openErr, run.upErr] + sess + tbs;
    }
  }

  /** `sql.Open` fails: nothing is sent, `oracle_up` keeps its previous value, no error
      counter moves, and the scrape counts as failed. */
  lemma OpenFailure(m: SelfMetrics, run: Run, cfg: Config, elapsed: Value)
    requires run.openErr.Some?
    ensures var r := ScrapeStep(m, run, cfg, elapsed);
      && r.emitted == []
      && r.metrics.oracleUp == m.oracleUp
      && r.metrics.scrapeErrors == m.scrapeErrors
      && r.metrics.error == 1.0
  {
  }

  /** The `up` query fails: nothing is sent, `oracle_up` is 0, no error counter moves,
      and the scrape counts as failed. */
  lemma DatabaseDown(m: SelfMetrics, run: Run, cfg: Config, elapsed: Value)
    requires run.openErr.None? && run.upErr.Some?
    ensures var r := ScrapeStep(m, run, cfg, elapsed);
      && r.emitted == []
      && r.metrics.oracleUp == 0.0
      && r.metrics.scrapeErrors == m.scrapeErrors
      && r.metrics.error == 1.0
  {
  }

  /** The database answers: `oracle_up` is 1 and the probes' samples are those of the
      session probe, when enabled, followed by those of the tablespace probe, when enabled. */
  lemma DatabaseUp(m: SelfMetrics, run: Run, cfg: Config, elapsed: Value)
    requires run.openErr.None? && run.upErr.None?
    ensures var r := ScrapeStep(m, run, cfg, elapsed);
      && r.metrics.oracleUp == 1.0
      && r.emitted ==
         (if cfg.collectSessionGeneral then run.session.emitted else []) +
         (if cfg.collectTablespaceUsage then run.tablespace.emitted else [])
  {
  }

  /** Whether the probe behind `collector` ran in this scrape and returned an error. */
  predicate Failed(run: Run, cfg: Config, collector: string)
  {
    && run.openErr.None? && run.upErr.None?
    && (|| (collector == SessionLabel && cfg.collectSessionGeneral && run.session.err.Some?)
        || (collector == TablespaceLabel && cfg.collectTablespaceUsage && run.tablespace.err.Some?))
  }

  /** Each error counter child goes up by one exactly when its probe ran and failed; no
      other child changes, and a child exists once its probe has failed. */
  lemma ErrorCounters(m: SelfMetrics, run: Run, cfg: Config, elapsed: Value, collector: string)
    ensures var r := ScrapeStep(m, run, cfg, elapsed);
      Count(r.metrics.scrapeErrors, collector) == Count(m.scrapeErrors, collector) + (if Failed(run, cfg, collector) then 1 else 0)
    ensures var r := ScrapeStep(m, run, cfg, elapsed);
      collector in r.metrics.scrapeErrors <==> collector in m.scrapeErrors || Failed(run, cfg, collector)
  {
    LabelsDistinct();
  }

  /** Both probes enabled and the database up: the scrape counts as failed exactly when
      the tablespace probe fails, whatever the session probe did. */
  lemma LastProbeDecides(m: SelfMetrics, run: Run, cfg: Config, elapsed: Value)
    requires run.openErr.None? && run.upErr.None?
    requires cfg.collectSessionGeneral && cfg.collectTablespaceUsage
    ensures ScrapeStep(m, run, cfg, elapsed).metrics.error == 1.0 <==> run.tablespace.err.Some?
  {
  }

  /** A failing session probe followed by a succeeding tablespace probe: its error counter
      goes up, yet `last_scrape_error` is 0. */
  lemma MaskedSessionFailure(m: SelfMetrics, run: Run, cfg: Config, elapsed: Value)
    requires run.openErr.None? && run.upErr.None?
    requires cfg.collectSessionGeneral && cfg.collectTablespaceUsage
    requires run.session.err.Some? && run.tablespace.err.None?
    ensures var r := ScrapeStep(m, run, cfg, elapsed);
      && r.metrics.error == 0.0
      && Count(r.metrics.scrapeErrors, SessionLabel) == Count(m.scrapeErrors, SessionLabel) + 1
      && Count(r.metrics.scrapeErrors, TablespaceLabel) == Count(m.scrapeErrors, TablespaceLabel)
  {
    ErrorCounters(m, run, cfg, elapsed, SessionLabel);
    ErrorCounters(m, run, cfg, elapsed, TablespaceLabel);
  }

  /** Both probes disabled: nothing is sent and a scrape of a reachable database is a success. */
  lemma NoProbes(m: SelfMetrics, run: Run, cfg: Config, elapsed: Value)
    requires !cfg.collectSessionGeneral && !cfg.collectTablespaceUsage
    ensures ScrapeStep(m, run, cfg, elapsed).emitted == []
    ensures ScrapeStep(m, run, cfg, elapsed).metrics.error == 0.0 <==> run.openErr.None? && run.upErr.None?
  {
  }

  /** Two scrapes in a row: the scrape counter is up by two, each error counter child by
      the number of the two scrapes in which its probe failed, and the gauges describe
      the second scrape only. */
  lemma TwoScrapes(m: SelfMetrics, run1: Run, run2: Run, cfg: Config, t1: Value, t2: Value, collector: string)
    ensures var r1 := ScrapeStep(m, run1, cfg, t1);
      var r2 := ScrapeStep(r1.metrics, run2, cfg, t2);
      && r2.metrics.totalScrapes == m.totalScrapes + 2
      && Count(r2.metrics.scrapeErrors, collector) ==
         Count(m.scrapeErrors, collector) + (if Failed(run1, cfg, collector) then 1 else 0) + (if Failed(run2, cfg, collector) then 1 else 0)
      && r2.metrics.duration == t2
      && r2.metrics.error == ScrapeStep(Initial, run2, cfg, t2).metrics.error
  {
    var r1 := ScrapeStep(m, run1, cfg, t1);
    ErrorCounters(m, run1, cfg, t1, collector);
    ErrorCounters(r1.metrics, run2, cfg, t2, collector);
    ErrorIsLastAssignment(r1.metrics, run2, cfg, t2);
    ErrorIsLastAssignment(Initial, run2, cfg, t2);
  }

  /** The metrics a sequence of scrapes can produce from a new exporter: both gauges that
      are set to 0 or 1 hold 0 or 1, only the two probe labels have error counter children,
      each child is at least 1 (it was created by an increment) and at most the number of
      scrapes (a probe fails at most once per scrape). */
  predicate Reachable(m: SelfMetrics)
  {
    && (m.error == 0.0 || m.error == 1.0)
    && (m.oracleUp == 0.0 || m.oracleUp == 1.0)
    && m.scrapeErrors.Keys <= {SessionLabel, TablespaceLabel}
    && forall l | l in m.scrapeErrors :: 1 <= m.scrapeErrors[l] <= m.totalScrapes
  }

  lemma InitialReachable()
    ensures Reachable(Initial)
  {
  }

  /** A scrape keeps the metrics reachable. */
  lemma ScrapeStepReachable(m: SelfMetrics, run: Run, cfg: Config, elapsed: Value)
    requires Reachable(m)
    ensures Reachable(ScrapeStep(m, run, cfg, elapsed).metrics)
  {
    var r := ScrapeStep(m, run, cfg, elapsed);
    forall l | l in r.metrics.scrapeErrors
      ensures 1 <= r.metrics.scrapeErrors[l] <= r.metrics.totalScrapes
      ensures l == SessionLabel || l == TablespaceLabel
    {
      ErrorCounters(m, run, cfg, elapsed, l);
    }
  }

  /** What `scrapeErrors.Collect(ch)` sends when it visits the children in `order`. */
  function ErrorCounterSamples(errors: map<string, nat>, order: seq<string>): (s: seq<Sample>)
    ensures |s| == |order|
  {
    if order == [] then []
    else
      var last := order[|order| - 1];
      ErrorCounterSamples(errors, order[..|order| - 1]) + [Counter(ScrapeErrors, Count(errors, last) as real, [last])]
  }

  /** One counter sample per visited label, in visiting order, labelled by it and valued by
      its child's count. */
  lemma {:induction false} ErrorCounterSamplesAt(errors: map<string, nat>, order: seq<string>)
    ensures |ErrorCounterSamples(errors, order)| == |order|
    ensures forall i | 0 <= i < |order| ::
      ErrorCounterSamples(errors, order)[i] == Counter(ScrapeErrors, Count(errors, order[i]) as real, [order[i]])
  {
    if order != [] {
      ErrorCounterSamplesAt(errors, order[..|order| - 1]);
    }
  }

  /** `order` visits every child exactly once. */
  predicate Enumerates(errors: map<string, nat>, order: seq<string>)
  {
    && (forall i, j | 0 <= i < j < |order| :: order[i] != order[j])
    && (forall i | 0 <= i < |order| :: order[i] in errors)
    && (forall l | l in errors :: l in order)
  }

  /** Whatever order the children are visited in, every child is sent once, with its count,
      and every counter sample belongs to a child. */
  lemma ErrorCountersOnce(errors: map<string, nat>, order: seq<string>)
    requires Enumerates(errors, order)
    ensures var s := ErrorCounterSamples(errors, order);
      && (forall l | l in errors :: exists i | 0 <= i < |s| :: s[i] == Counter(ScrapeErrors, errors[l] as real, [l]))
      && (forall i, j | 0 <= i < j < |s| :: s[i].labelValues != s[j].labelValues)
      && (forall i | 0 <= i < |s| :: |s[i].labelValues| == 1 && s[i].labelValues[0] in errors)
  {
    var s := ErrorCounterSamples(errors, order);
    ErrorCounterSamplesAt(errors, order);
    forall l | l in errors
      ensures exists i | 0 <= i < |s| :: s[i] == Counter(ScrapeErrors, errors[l] as real, [l])
    {
      var i :| 0 <= i < |order| && order[i] == l;
      assert s[i] == Counter(ScrapeErrors, errors[l] as real, [l]);
    }
    forall i, j | 0 <= i < j < |s|
      ensures s[i].labelValues != s[j].labelValues
    {
      assert s[i].labelValues[0] == order[i] && s[j].labelValues[0] == order[j];
    }
  }

  /** What `Collect` sends after the scrape: the duration, the scrape counter, the error
      gauge, the error counter children in `order`, then `oracle_up`. */
  function SelfSamples(m: SelfMetrics, order: seq<string>): (s: seq<Sample>)
    ensures |s| == |order| + 4
    ensures s[0].desc == Duration && s[0].value == m.duration
    ensures s[1].desc == TotalScrapes && s[1].value == m.totalScrapes as real
    ensures s[2].desc == LastError && s[2].value == m.error
    ensures s[|s| - 1].desc == Up && s[|s| - 1].value == m.oracleUp
  {
    [ Gauge(Duration, m.duration, []),
      Counter(TotalScrapes, m.totalScrapes as real, []),
      Gauge(LastError, m.error, []) ]
    + ErrorCounterSamples(m.scrapeErrors, order)
    + [Gauge(Up, m.oracleUp, [])]
  }

  /** The `Exporter` struct: the data source name and the exporter's own gauges and counters,
      which keep their values from one collection to the next. */
  class Exporter {
    const dsn: string
    var duration: Value
    var error: Value
    var totalScrapes: nat
    var scrapeErrors: map<string, nat>
    var oracleUp: Value

    function Metrics(): SelfMetrics
      reads this
    {
      SelfMetrics(duration, error, totalScrapes, scrapeErrors, oracleUp)
    }

    /** `NewExporter(dsn)` */
    constructor (dsn: string)
      ensures this.dsn == dsn
      ensures Metrics() == Initial
    {
      this.dsn := dsn;
      duration, error, totalScrapes, scrapeErrors, oracleUp := 0.0, 0.0, 0, map[], 0.0;
    }

    /** `scrape`: the probes send on `ch` and the self-metrics move as ScrapeStep says. The
        labelled block stands for the function body with its early returns; what follows it
        is the deferred function, which reads the last value of `err`. */
    method Scrape(db: Db, cfg: Config, elapsed: Value, ch: Channel)
      modifies this, ch
      ensures Metrics() == ScrapeStep(old(Metrics()), Calls(db, cfg), cfg, elapsed).metrics
      ensures ch.sent == old(ch.sent) + ScrapeStep(old(Metrics()), Calls(db, cfg), cfg, elapsed).emitted
    {
      totalScrapes := totalScrapes + 1;
      var err: Option<Error>;
      label body: {
        err := db.openErr;
        if err.Some? {
          break body;
        }
        err := db.upErr;
        if err.Some? {
          oracleUp := 0.0;
          break body;
        }
        oracleUp := 1.0;
        ghost var base, p := ch.sent, Progress(scrapeErrors, [], None);
        assert ch.sent == base + p.emitted;
        err := SessionBlock(db, cfg, err, ch, base, p);
        p := RunProbe(p, cfg.collectSessionGeneral, SessionLabel, Calls(db, cfg).session);
        err := TablespaceBlock(db, cfg, err, ch, base, p);
      }
      duration := elapsed;
      error := if err.None? then 0.0 else 1.0;
    }

    /** `if *collectSessionGeneral { ... }`: the session probe, its failure counted under
        `collect.session.general`. `err0` is the value of `err` before the block,
        `p` the progress so far, and `base` what was sent before the first probe. */
    method SessionBlock(db: Db, cfg: Config, err0: Option<Error>, ch: Channel, ghost base: seq<Sample>, ghost p: Progress)
      returns (err: Option<Error>)
      requires p.errors == scrapeErrors && p.err == err0 && ch.sent == base + p.emitted
      modifies this, ch
      ensures var q := RunProbe(p, cfg.collectSessionGeneral, SessionLabel, Calls(db, cfg).session);
        scrapeErrors == q.errors && ch.sent == base + q.emitted && err == q.err
      ensures duration == old(duration) && error == old(error)
      ensures totalScrapes == old(totalScrapes) && oracleUp == old(oracleUp)
    {
      err := err0;
      if cfg.collectSessionGeneral {
        err := ScrapeSession(db, cfg, ch);
        ConcatAssoc(base, p.emitted, Calls(db, cfg).session.emitted);
        if err.Some? {
          scrapeErrors := Inc(scrapeErrors, SessionLabel);
        }
      }
    }

    /** `if *collectTablespaceUsage { ... }`: the tablespace probe, its failure counted under
        `collect.tablespace.usage`. `err0` is the value of `err` before the block,
        `p` the progress so far, and `base` what was sent before the first probe. */
    method TablespaceBlock(db: Db, cfg: Config, err0: Option<Error>, ch: Channel, ghost base: seq<Sample>, ghost p: Progress)
      returns (err: Option<Error>)
      requires p.errors == scrapeErrors && p.err == err0 && ch.sent == base + p.emitted
      modifies this, ch
      ensures var q := RunProbe(p, cfg.collectTablespaceUsage, TablespaceLabel, Calls(db, cfg).tablespace);
        scrapeErrors == q.errors && ch.sent == base + q.emitted && err == q.err
      ensures duration == old(duration) && error == old(error)
      ensures totalScrapes == old(totalScrapes) && oracleUp == old(oracleUp)
    {
      err := err0;
      if cfg.collectTablespaceUsage {
        err := Tablespaces.ScrapeTablespaceUsage(db.tablespaces, ch);
        ConcatAssoc(base, p.emitted, Calls(db, cfg).tablespace.emitted);
        if err.Some? {
          scrapeErrors := Inc(scrapeErrors, TablespaceLabel);
        }
      }
    }

    /** `collector.ScrapeUserSessionCount(db, ch)`, whichever of the two it is. */
    method ScrapeSession(db: Db, cfg: Config, ch: Channel) returns (err: Option<Error>)
      modifies ch
      ensures ch.sent == old(ch.sent) + SessionOutcome(db, cfg).emitted
      ensures err == SessionOutcome(db, cfg).err
    {
      if cfg.sessionProbe == UserSessionCounts {
        err := Session.ScrapeUserSessionCount(db.userSessions, db.systemSessions, ch);
      } else {
        err := SessionGeneral.ScrapeUserSessionCount(db.sessionCounts, db.activeUserSessions, ch);
      }
    }

    /** `Collect`: a scrape, then the exporter's own metrics; `order` is the order in which
        the error counter children were sent. */
    method Collect(db: Db, cfg: Config, elapsed: Value, ch: Channel) returns (order: seq<string>)
      modifies this, ch
      ensures Metrics() == ScrapeStep(old(Metrics()), Calls(db, cfg), cfg, elapsed).metrics
      ensures Enumerates(scrapeErrors, order)
      ensures ch.sent == old(ch.sent) + ScrapeStep(old(Metrics()), Calls(db, cfg), cfg, elapsed).emitted + SelfSamples(Metrics(), order)
    {
      Scrape(db, cfg, elapsed, ch);
      order := SendSelfMetrics(ch);
    }

    /** The sends of `Collect` after the scrape: the duration, the scrape counter, the error
        gauge, the error counter children, then `oracle_up`. */
    method SendSelfMetrics(ch: Channel) returns (order: seq<string>)
      modifies ch
      ensures Enumerates(scrapeErrors, order)
      ensures ch.sent == old(ch.sent) + SelfSamples(Metrics(), order)
    {
      ch.Send(Gauge(Duration, duration, []));
      ch.Send(Counter(TotalScrapes, totalScrapes as real, []));
      ch.Send(Gauge(LastError, error, []));
      order := CollectErrorCounters(ch);
      ch.Send(Gauge(Up, oracleUp, []));
    }

    /** `scrapeErrors.Collect(ch)`: one counter sample per child, in an order the model leaves
        open (Go map order); `order` is that order. */
    method CollectErrorCounters(ch: Channel) returns (order: seq<string>)
      modifies ch
      ensures Enumerates(scrapeErrors, order)
      ensures ch.sent == old(ch.sent) + ErrorCounterSamples(scrapeErrors, order)
    {
      var remaining := scrapeErrors.Keys;
      order := [];
      while remaining != {}
        invariant remaining <= scrapeErrors.Keys
        invariant forall l :: l in order <==> l in scrapeErrors && l !in remaining
        invariant forall i, j | 0 <= i < j < |order| :: order[i] != order[j]
        invariant ch.sent == old(ch.sent) + ErrorCounterSamples(scrapeErrors, order)
        decreases remaining
      {
        var l :| l in remaining;
        ch.Send(Counter(ScrapeErrors, scrapeErrors[l] as real, [l]));
        assert (order + [l])[..|order|] == order;
        order := order + [l];
        remaining := remaining - {l};
      }
    }
  }
}
