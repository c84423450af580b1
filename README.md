# oracle_exporter: scrape coordinator and probe decoders

This project models the Prometheus Oracle exporter. The model has two parts.

- **The exporter (`Exporter`).** The exporter's own gauges and counters live in a class. Each scrape opens the database, checks it with an
  `up` query, and then runs the probes its flags enable (the session probe and the tablespace
  probe). It counts each probe failure under that probe's `collector` label. A deferred block
  then records the scrape duration, and sets `last_scrape_error` from the *last* value the
  scrape's `err` variable held. `Collect` sends the probes' samples first, then the
  exporter's own metrics in a fixed order.
- **The probes (`Tablespaces`, `ResourceLimit`, `Archivelogs`, `Session`, `SessionGeneral`).**
  Each probe walks one or two query results and sends samples on the metric channel as it goes.
  It returns the first error it meets. Samples sent before that error stay on the channel.

The database is not evaluated. Every call into it is replaced by its outcome, given as
input (module `Database`):
- a query fails, or it yields rows;
- each row scans, or it fails to scan;
- a single-row query scans, or it returns an error such as "no rows".

The metric channel is a class whose `sent` sequence only grows at the end (`Metric.Channel`).
Sample values are `real`. The exporter only copies them from row cells into samples and never
computes on them.

Each probe method is stated against a pure function. That function gives the samples the probe
sends and the error it returns. The lemmas prove what the source promises about those outcomes:
- output length, order, labels and values for every row;
- exactly what is already sent when a later step fails;
- which metric families the samples belong to.

`Exporter.ScrapeStep` states what one scrape does to the self-metrics. The class methods are
proved against it. The lemmas beside it prove:
- the early-return paths;
- the per-label error counters;
- the surprising "last assignment wins" meaning of `last_scrape_error`;
- an invariant that every reachable state keeps.

The source package `collector` declares the constant `sess` and the function
`ScrapeUserSessionCount` twice: in collector/session.go and in collector/session_general.go.
The model keeps the two as separate modules, `Session` and `SessionGeneral`. Which of the two
the exporter's session step calls is a parameter (`Exporter.Config.sessionProbe`).
`ScrapeArchivelogs` and `ScrapeResourceLimit` are never called by `scrape`, so they are
modelled as standalone probes.

## Model

| member | source | states |
|---|---|---|
| Metric.BuildFQName | collector/tablespaces.go:48 | `prometheus.BuildFQName` gives the empty name exactly when `name` is empty. Otherwise the result ends with `name`. |
| Metric.BuildFQNameJoins | collector/tablespaces.go:48 | A fully-qualified name is the non-empty parts among namespace, subsystem and name, joined by `_`. It is empty when the name is empty. |
| Metric.BuildFQNameInjective | collector/archivelog_stats.go:79 | With a fixed non-empty namespace and subsystem, two non-empty names give the same fully-qualified name exactly when they are equal. |
| Metric.Channel.constructor | oracle_exporter.go:140 | A new channel has had nothing sent on it. |
| Metric.Channel.Send | collector/tablespaces.go:91-95 | `ch <- s` appends `s` to what was sent and changes nothing earlier. |
| Probe.RowsOutcome | collector/tablespaces.go:84-89 | The row loop returns nil exactly when every row scanned. |
| Probe.QueryOutcome | collector/tablespaces.go:78-89 | A failed query returns its error and sends nothing. Otherwise the row loop runs, and nil is returned exactly when every row scans. |
| Probe.SingleOutcome | collector/archivelog_stats.go:92-95 | A single-row query returns nil exactly when its row scans. A row that does not scan returns its error and sends nothing. |
| Probe.AndThen | collector/archivelog_stats.go:70-102 | A probe's two steps return nil exactly when both do. When the first step fails, the second is not run. What the first step sent stays sent, as a prefix of all that is sent. |
| Probe.RowsOutcomeFrom | collector/tablespaces.go:84-89 | One iteration of the loop: a row that fails to scan ends the loop with its error and sends nothing. A row that scans sends its samples, then the loop continues with the next row. |
| Probe.RowsOutcomeLength | collector/tablespaces.go:84-111 | When every row scans and each row gives `width` samples, the loop sends `width × rows` samples. |
| Probe.RowsOutcomeConcat | collector/tablespaces.go:84-111 | When rows 0..k-1 all scan, the loop over all rows sends what the loop over the first k rows sends, followed by what the loop over the remaining rows sends, and it returns the error of the remaining rows. |
| Probe.RowsOutcomeSplit | collector/tablespaces.go:84-111 | When rows 0..k scan, what is sent is the samples of the rows before k, then row k's samples, then the samples of the rows after k. The error comes from the rows after k. |
| Probe.RowsOutcomeStopsAt | collector/tablespaces.go:85-89 | When row k is the first that fails to scan, the loop returns that row's error. What was sent is exactly what the rows before k give; those rows alone return nil. |
| Probe.RowsOutcomeAll | collector/tablespaces.go:84-111 | A property that every decoded sample has also holds of every sample the loop sends. |
| Probe.IterationErrorIgnored | collector/tablespaces.go:84-113 | The error `rows.Err()` would report changes neither what is sent nor what is returned, because the source never looks at it. |
| Tablespaces.Families | collector/tablespaces.go:47-66 | The four families are `oracle_tablespaces_size_bytes`, `_free_bytes`, `_max_size_bytes` and `_max_free_bytes`. Each has the label schema `["tablespace_name"]`. |
| Tablespaces.TablespaceUsage | collector/tablespaces.go:78-113 | A failed query returns its error and sends nothing. The probe returns nil exactly when the query succeeds and every row scans. |
| Tablespaces.TablespaceUsageSamples | collector/tablespaces.go:84-111 | Every sample sent is a gauge of one of the four families with one label value. That value is the name of a tablespace the query returned. |
| Tablespaces.NamesFromRows | collector/tablespaces.go:85-110 | Every sample the loop sends is labelled with the first column of a row that scanned. |
| Tablespaces.TablespaceUsageRows | collector/tablespaces.go:84-113 | When all rows scan: the probe returns nil and sends exactly 4 samples per row. Zero rows give zero samples. Row k gives samples 4k to 4k+3: size, free, max size, max free. They are valued by columns 2 to 5 and labelled with column 1. |
| Tablespaces.TablespaceUsageScanFailure | collector/tablespaces.go:84-89 | When row k is the first that fails to scan: its error is returned and exactly the 4k samples of rows 0..k-1 are sent. |
| Tablespaces.ScrapeTablespaceUsage | collector/tablespaces.go:70-114 | The loop appends to the channel exactly what TablespaceUsage gives and returns its error. |
| Tablespaces.SendRow | collector/tablespaces.go:91-110 | The body of one iteration appends the row's four gauges in source order. |
| ResourceLimit.Families | collector/resource_limit.go:29-43 | The three families are `oracle_resource_limit_current_utilization`, `_max_utilization` and `_init_limit`. Each has the label schema `["resource_name"]`. |
| ResourceLimit.ResourceLimits | collector/resource_limit.go:54-84 | A failed query returns its error and sends nothing. The probe returns nil exactly when the query succeeds and every row scans. |
| ResourceLimit.ResourceLimitsSamples | collector/resource_limit.go:60-82 | Every sample sent is a gauge of one of the three families, with one label value per label. |
| ResourceLimit.ResourceLimitRows | collector/resource_limit.go:60-84 | When all rows scan: the probe returns nil and sends 3 samples per row. Row k gives samples 3k to 3k+2: current utilization, max utilization, init limit. They are valued by columns 2 to 4 and labelled with column 1. |
| ResourceLimit.ResourceLimitScanFailure | collector/resource_limit.go:60-65 | When row k is the first that fails to scan: its error is returned and exactly the 3k samples of the earlier rows are sent. |
| ResourceLimit.ScrapeResourceLimit | collector/resource_limit.go:47-85 | The loop appends exactly what ResourceLimits gives and returns its error. |
| ResourceLimit.SendRow | collector/resource_limit.go:67-81 | The body of one iteration appends the row's three gauges in source order. |
| Archivelogs.DetailFamilies | collector/archivelog_stats.go:77-83 | A detail family is `oracle_archivelog_stats_<metricName>` with the label `inst_id`. Different non-empty metric names give different families. An empty name gives the empty name. |
| Archivelogs.CompletionFamily | collector/archivelog_stats.go:48-52 | The completion family is `oracle_archivelog_stats_completion_avg_time_ms`, with no labels. |
| Archivelogs.Archivelogs | collector/archivelog_stats.go:64-102 | A failed detail query returns its error and sends nothing. The probe returns nil exactly when the detail query succeeds, every detail row scans and the completion row scans. |
| Archivelogs.ArchivelogsSamples | collector/archivelog_stats.go:84-101 | Every sample sent is a gauge: either the unlabelled completion average, or a sample of a family labelled `inst_id`. Each carries one label value per label. |
| Archivelogs.ArchivelogsSuccess | collector/archivelog_stats.go:70-102 | On success there are rows + 1 samples. Row k gives one gauge in the family named by its second column, valued by its third column and labelled with its first. The last sample is the unlabelled completion average, valued by that query's second column. |
| Archivelogs.CompletionFailure | collector/archivelog_stats.go:92-95 | When the completion query fails after all detail rows scanned, its error is returned after every detail sample is sent. |
| Archivelogs.ArchivelogsScanFailure | collector/archivelog_stats.go:70-75 | When detail row k is the first that fails to scan: its error is returned, and exactly the k samples of the earlier rows are sent. The completion query is not reached. |
| Archivelogs.ScrapeArchivelogs | collector/archivelog_stats.go:56-103 | The probe appends exactly what Archivelogs gives and returns its error. The completion row is scanned into the loop's variables. |
| Archivelogs.SendDetails | collector/archivelog_stats.go:70-89 | The detail loop appends one gauge per row, with a descriptor built from the row's metric name. It returns the first scan error. |
| Session.Families | collector/session.go:34-48 | The three families are `oracle_session_inactive_user_session`, `_active_user_session` and `_system_session`, all with an empty label schema. |
| Session.UserSessionCount | collector/session.go:60-88 | Nil is returned exactly when both queries scan. A failed first query returns its error and sends nothing. A failed second query returns its error after exactly 2 samples. Success sends exactly 3 samples. |
| Session.UserSessionCountSamples | collector/session.go:65-86 | The samples sent are unlabelled gauges of the inactive, active and system families, in that order. |
| Session.UserSessionCountValues | collector/session.go:60-86 | On success the values are the first query's two columns, then the second query's single column. |
| Session.SystemQueryFailure | collector/session.go:77-80 | When the second query fails, what is sent is the first two samples a successful scrape would send, whatever the system count. |
| Session.ScrapeUserSessionCount | collector/session.go:52-89 | The probe appends exactly what UserSessionCount gives and returns its error. The system count is scanned into the variable that held the active count. |
| SessionGeneral.Families | collector/session_general.go:33-43 | The families are `oracle_sessions_total`, labelled `session_type`, and `oracle_sessions_active_user_total`, unlabelled. |
| SessionGeneral.UserSessionCount | collector/session_general.go:54-85 | A failed row query returns its error and sends nothing. Nil is returned exactly when the row query succeeds, every row scans and the active count scans. |
| SessionGeneral.UserSessionCountSamples | collector/session_general.go:67-84 | Every sample sent is a gauge of one of the two families, with one label value per label. |
| SessionGeneral.UserSessionCountSuccess | collector/session_general.go:60-85 | On success there are rows + 1 samples. Row k gives `oracle_sessions_total` with `session_type` set to its first column and its second column as value. The last sample is the unlabelled active-user total. |
| SessionGeneral.ActiveCountFailure | collector/session_general.go:75-78 | When the active-count query fails, its error is returned after exactly the rows' samples. |
| SessionGeneral.UserSessionCountScanFailure | collector/session_general.go:60-65 | When row k is the first that fails to scan: its error is returned, and exactly the k samples of the earlier rows are sent. |
| SessionGeneral.ScrapeUserSessionCount | collector/session_general.go:46-86 | The probe appends exactly what UserSessionCount gives and returns its error. |
| SessionGeneral.SendCounts | collector/session_general.go:60-72 | The row loop appends one labelled gauge per row and returns the first scan error. |
| Exporter.Families | oracle_exporter.go:79-107 | Four families live under `oracle_exporter_`; only `scrape_errors_total` is labelled, by `collector`. The `up` gauge is `oracle_up`, because it has no subsystem. |
| Exporter.LabelsDistinct | oracle_exporter.go:182-188 | The two collector labels differ, so each probe counts its failures in a separate child. |
| Exporter.Inc | oracle_exporter.go:182 | Incrementing a label creates its child if needed. That label's count goes up by one, and no other label's count changes. |
| Exporter.SessionOutcome | oracle_exporter.go:180 | The session step returns nil exactly when the queries of the chosen `ScrapeUserSessionCount` all scan: both single rows for collector/session.go; every row and the active count for collector/session_general.go. |
| Exporter.Calls | oracle_exporter.go:162-190 | The calls of one scrape: opening and the `up` query give the database's errors. The tablespace probe returns nil exactly when its query succeeds and every row scans. A failed tablespace query sends nothing. |
| Exporter.RunProbe | oracle_exporter.go:179-184 | A disabled probe changes nothing. An enabled probe appends its samples and sets `err` to its result. Its label's error count goes up by one exactly when it ran and failed, and no other label's count changes. |
| Exporter.RunProbes | oracle_exporter.go:179-190 | The probes send the session probe's samples, if enabled, then the tablespace probe's, if enabled. The final `err` is the tablespace probe's when it is enabled, else the session probe's when that one is, else nil. |
| Exporter.ScrapeBody | oracle_exporter.go:162-190 | The body before the deferred function leaves `scrapes_total`, the duration and `last_scrape_error` alone. When opening or the `up` query fails, nothing is sent, `err` is non-nil and no error counter moves. `up` is kept when opening fails, set to 0 when the `up` query fails, and set to 1 otherwise. |
| Exporter.ScrapeStep | oracle_exporter.go:150-191 | Every scrape adds exactly one to `scrapes_total` and sets the duration. `last_scrape_error` is 1 exactly when the final `err` is non-nil, and 0 exactly when it is nil. |
| Exporter.ErrorIsLastAssignment | oracle_exporter.go:152-190 | The final `err`, and so `last_scrape_error`, is the last value assigned to `err` on the path taken. |
| Exporter.OpenFailure | oracle_exporter.go:162-166 | When opening fails: nothing is sent, `up` keeps its previous value, no error counter changes, and `last_scrape_error` is 1. |
| Exporter.DatabaseDown | oracle_exporter.go:169-174 | When the `up` query fails: nothing is sent, `up` is 0, no error counter changes, and `last_scrape_error` is 1. |
| Exporter.DatabaseUp | oracle_exporter.go:175-190 | When the database answers, `up` is 1. The samples sent are the session probe's, if enabled, then the tablespace probe's, if enabled, whatever the first one returned. |
| Exporter.ErrorCounters | oracle_exporter.go:179-190 | Each label's error count rises by exactly one when its probe ran and failed, and is unchanged otherwise. Its child exists exactly when it existed before or its probe failed. |
| Exporter.LastProbeDecides | oracle_exporter.go:152-190 | With both probes enabled and the database up, `last_scrape_error` is 1 exactly when the tablespace probe failed. |
| Exporter.MaskedSessionFailure | oracle_exporter.go:179-190 | A failing session probe followed by a succeeding tablespace probe raises the session count by one, yet leaves `last_scrape_error` at 0. |
| Exporter.NoProbes | oracle_exporter.go:179-190 | With both probes disabled, nothing is sent. `last_scrape_error` is 0 exactly when opening and the `up` query succeed. |
| Exporter.TwoScrapes | oracle_exporter.go:150-191 | After two scrapes, `scrapes_total` is up by two. Each error count is up by the number of those scrapes in which its probe failed. The duration and `last_scrape_error` describe the second scrape only. |
| Exporter.InitialReachable | oracle_exporter.go:76-109 | A new exporter satisfies the invariant. |
| Exporter.ScrapeStepReachable | oracle_exporter.go:150-191 | A scrape preserves the invariant: `up` and `last_scrape_error` are 0 or 1; only the two probe labels have error children; each child is at least 1 and at most `scrapes_total`. |
| Exporter.ErrorCounterSamples | oracle_exporter.go:146 | `scrapeErrors.Collect` sends one sample per child it visits. |
| Exporter.SelfSamples | oracle_exporter.go:143-147 | After the scrape, `Collect` sends 4 samples plus one per error counter child. First come the duration, `scrapes_total` and `last_scrape_error`, with their values; `up` comes last, with its value. |
| Exporter.ErrorCounterSamplesAt | oracle_exporter.go:146 | The error counter family sends one counter per visited label, in visiting order, valued by that label's count. |
| Exporter.ErrorCountersOnce | oracle_exporter.go:146 | In any visiting order that lists each child once, every child is sent exactly once with its count, and every counter sample belongs to a child. |
| Exporter.Exporter.constructor | oracle_exporter.go:76-109 | `NewExporter` keeps the data source name. Every gauge and counter starts at zero, with no error counter child. |
| Exporter.Exporter.Scrape | oracle_exporter.go:150-191 | `scrape` moves the fields as ScrapeStep says and appends the probes' samples to the channel. |
| Exporter.Exporter.SessionBlock | oracle_exporter.go:179-184 | The session block runs the session probe only when its flag is set, and counts a failure under `collect.session.general`. |
| Exporter.Exporter.TablespaceBlock | oracle_exporter.go:185-190 | The tablespace block runs the tablespace probe only when its flag is set, and counts a failure under `collect.tablespace.usage`. |
| Exporter.Exporter.ScrapeSession | oracle_exporter.go:180 | The session step sends and returns what the chosen `ScrapeUserSessionCount` does. |
| Exporter.Exporter.Collect | oracle_exporter.go:140-148 | Collect sends the probes' samples first. Then come the duration, `scrapes_total`, `last_scrape_error`, every error counter child once, and finally `up`. |
| Exporter.Exporter.SendSelfMetrics | oracle_exporter.go:143-147 | The self-metrics are sent in source order, with the values the fields hold after the scrape. |
| Exporter.Exporter.CollectErrorCounters | oracle_exporter.go:146 | `scrapeErrors.Collect` sends each child exactly once, in an unspecified order. |

## Left out

- HTTP listener, landing page, flag parsing, version printing and `main` (oracle_exporter.go:18-39, 57-64, 193-222): process plumbing. The two probe flags appear as `Exporter.Config` fields; both default to true in the source.
- SQL text and Oracle view semantics. Each query is given by its outcome, not computed from SQL.
- Prometheus library internals: descriptor validation, the panics of `MustNewConstMetric`, and exposition. This also covers the panic an empty or invalid metric name read from an archivelog row would cause. Samples are plain records.
- `Describe` (oracle_exporter.go:111-137): it runs a full `Collect`, and so a full scrape, and forwards the descriptor of each sample on a goroutine. `prometheus.MustRegister` (oracle_exporter.go:213) calls it once at startup. Its effect on the exporter's state is that of `Exporter.Exporter.Collect`, which the model covers; the goroutine and the descriptor channel are concurrency plumbing.
- Exporter.Exporter.Scrape and Exporter.Exporter.Collect model collections that do not overlap. Each HTTP poll (oracle_exporter.go:215) runs its own `Collect`, and `scrape` takes no lock (oracle_exporter.go:150-191), so overlapping polls interleave their updates of `err`, `error`, `oracleUp`, `duration` and the counters. The model treats each `Collect` as one step on the fields, because its methods are sequential.
- Exporter.Exporter.SendSelfMetrics: `Collect` sends the live gauge and counter objects (oracle_exporter.go:143-147), and the registry reads their values only when it writes them out. The model sends their values at the time of the send. The two agree only when no other scrape runs in between.
- Exporter.ScrapeStep: the duration is an input (`elapsed`) instead of being measured with `time.Since`. The model states only that every exit path sets it to that input.
- Exporter.ScrapeStep: `scrapes_total` and the error counters are modelled as natural numbers, not float64 counters.
- Logging, the unchecked `isUpRows.Close()`, `db.Close()` (oracle_exporter.go:164, 167, 171, 175, 181, 187), and the probes' deferred `rows.Close()` (collector/tablespaces.go:82, collector/resource_limit.go:58, collector/archivelog_stats.go:68, collector/session_general.go:58): no state the exporter reads depends on them.
- The value returned by the `up` query is not inspected by the source. Only whether the query fails matters, and that is all the model keeps.
- The collector package's `namespace` constant is declared in a file that is not part of this model. Its value `"oracle"` is taken from oracle_exporter.go:44 (`Metric.Namespace`).
- `rows.Err()` is never called by any probe. An iteration error is carried in `Database.QueryResult` and shown to change nothing (`Probe.IterationErrorIgnored`).
- The duplicate declarations of `sess` and `ScrapeUserSessionCount` prevent the collector package from compiling as written. The model gives each its own module.
- Help strings are carried in the descriptors as written, but no property is stated about them.
