/** The database as the probes see it. No SQL is evaluated: every call the exporter makes
    into `database/sql` is replaced by its outcome, given as input. */
module Database {

  datatype Option<+T> = None | Some(value: T)

  /** An error returned by the driver: `sql.ErrNoRows` from `QueryRow(...).Scan` when the
      query has no row, anything else (connection, SQL, conversion) as a message. */
  datatype Error = ErrNoRows | DriverError(message: string)

  /** One turn of `for rows.Next() { rows.Scan(...) }`: the row's cells converted into the
      scan targets, or the error `Scan` returned when a cell does not convert. */
  datatype Row<T> = Scanned(value: T) | ScanFailed(err: Error)

  /** The outcome of `db.Query`: an error, or the rows `rows.Next()` walks through. When
      `Next` stops early because of an error, `iterationErr` holds what `rows.Err()` would
      report; the probes never call `rows.Err()`, so nothing reads it. */
  datatype QueryResult<T> = QueryFailed(err: Error) | Rows(rows: seq<Row<T>>, iterationErr: Option<Error>)

  /** The outcome of `db.QueryRow(q).Scan(...)`: the first row converted into the scan
      targets, or an error (`ErrNoRows` when there is no row). */
  datatype SingleRow<T> = Found(value: T) | NotScanned(err: Error)
}
