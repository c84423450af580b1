/** What every probe has in common: it sends samples on the channel while it walks the
    result of its queries, and it returns the first error it meets, leaving the samples it
    already sent on the channel. */
module Probe {
  import opened Metric
  import opened Database

  /** What one probe call leaves behind: the samples it sent, in order, and its return value. */
  datatype Outcome = Outcome(emitted: seq<Sample>, err: Option<Error>)

  /** The `for rows.Next()` loop of a probe: each scanned row is decoded into samples that
      are sent before the next row is read; the first row that fails to scan ends the loop
      with its error. */
  function RowsOutcome<T>(rows: seq<Row<T>>, decode: T -> seq<Sample>): (o: Outcome)
    ensures o.err.None? <==> forall j | 0 <= j < |rows| :: rows[j].Scanned?
  {
    if rows == [] then Outcome([], None)
    else
      match rows[0]
      case ScanFailed(e) => Outcome([], Some(e))
      case Scanned(v) =>
        var rest := RowsOutcome(rows[1..], decode);
        assert forall j | 1 <= j < |rows| :: rows[j] == rows[1..][j - 1];
        Outcome(decode(v) + rest.emitted, rest.err)
  }

  /** One turn of the loop, seen from row `i` on. */
  lemma RowsOutcomeFrom<T>(rows: seq<Row<T>>, decode: T -> seq<Sample>, i: nat)
    requires i < |rows|
    ensures rows[i].ScanFailed? ==> RowsOutcome(rows[i..], decode) == Outcome([], Some(rows[i].err))
    ensures rows[i].Scanned? ==>
      RowsOutcome(rows[i..], decode) ==
      Outcome(decode(rows[i].value) + RowsOutcome(rows[i + 1..], decode).emitted, RowsOutcome(rows[i + 1..], decode).err)
  {
    assert rows[i..][0] == rows[i];
    assert rows[i..][1..] == rows[i + 1..];
  }

  /** `rows, err := db.Query(q); if err != nil { return err }` followed by the row loop;
      the iteration error is not looked at. */
  function QueryOutcome<T>(q: QueryResult<T>, decode: T -> seq<Sample>): (o: Outcome)
    ensures q.QueryFailed? ==> o == Outcome([], Some(q.err))
    ensures o.err.None? <==> q.Rows? && forall j | 0 <= j < |q.rows| :: q.rows[j].Scanned?
  {
    match q
    case QueryFailed(e) => Outcome([], Some(e))
    case Rows(rows, _) => RowsOutcome(rows, decode)
  }

  /** `err = db.QueryRow(q).Scan(...); if err != nil { return err }` followed by the sends
      that use the scanned values. */
  function SingleOutcome<T>(q: SingleRow<T>, decode: T -> seq<Sample>): (o: Outcome)
    ensures o.err.None? <==> q.Found?
    ensures q.NotScanned? ==> o.emitted == [] && o.err == Some(q.err)
  {
    match q
    case NotScanned(e) => Outcome([], Some(e))
    case Found(v) => Outcome(decode(v), None)
  }

  /** Two steps of one probe in sequence: the second runs only when the first returned nil. */
  function AndThen(first: Outcome, next: Outcome): (o: Outcome)
    ensures o.err.None? <==> first.err.None? && next.err.None?
    ensures first.err.Some? ==> o == first
    ensures |first.emitted| <= |o.emitted| && o.emitted[..|first.emitted|] == first.emitted
  {
    if first.err.Some? then first else Outcome(first.emitted + next.emitted, next.err)
  }

  /** Every row scanned and every row decoded into `width` samples: `width` samples per row. */
  lemma {:induction false} RowsOutcomeLength<T>(rows: seq<Row<T>>, decode: T -> seq<Sample>, width: nat)
    requires forall j | 0 <= j < |rows| :: rows[j].Scanned?
    requires forall v :: |decode(v)| == width
    ensures |RowsOutcome(rows, decode).emitted| == width * |rows|
  {
    if rows != [] {
      RowsOutcomeLength(rows[1..], decode, width);
      assert width * |rows| == width + width * |rows[1..]|;
    }
  }

  lemma ConcatAssoc(a: seq<Sample>, b: seq<Sample>, c: seq<Sample>)
    ensures a + b + c == a + (b + c)
  {
  }

  /** Rows before `k` scanned: what the loop sends is what the rows before `k` give, then
      what the rows from `k` on give, and the error comes from the rows from `k` on. */
  lemma {:induction false} RowsOutcomeConcat<T>(rows: seq<Row<T>>, decode: T -> seq<Sample>, k: nat)
    requires k <= |rows|
    requires forall j | 0 <= j < k :: rows[j].Scanned?
    ensures RowsOutcome(rows, decode).emitted == RowsOutcome(rows[..k], decode).emitted + RowsOutcome(rows[k..], decode).emitted
    ensures RowsOutcome(rows, decode).err == RowsOutcome(rows[k..], decode).err
  {
    if k == 0 {
      assert rows[..0] == [];
      assert rows[0..] == rows;
    } else {
      var tail, prefix := rows[1..], rows[..k];
      RowsOutcomeConcat(tail, decode, k - 1);
      assert tail[..k - 1] == prefix[1..];
      assert tail[k - 1..] == rows[k..];
      assert prefix[0] == rows[0];
      var head := decode(rows[0].value);
      var pre := RowsOutcome(prefix[1..], decode).emitted;
      var post := RowsOutcome(rows[k..], decode).emitted;
      assert RowsOutcome(rows, decode).emitted == head + RowsOutcome(tail, decode).emitted;
      assert RowsOutcome(prefix, decode).emitted == head + pre;
      ConcatAssoc(head, pre, post);
    }
  }

  /** Rows up to `k` scanned: what the loop sends is what the rows before `k` give, then
      row `k`'s samples, then what the rows after `k` give. */
  lemma RowsOutcomeSplit<T>(rows: seq<Row<T>>, decode: T -> seq<Sample>, k: nat)
    requires k < |rows|
    requires forall j | 0 <= j <= k :: rows[j].Scanned?
    ensures RowsOutcome(rows, decode).emitted ==
      RowsOutcome(rows[..k], decode).emitted + decode(rows[k].value) + RowsOutcome(rows[k + 1..], decode).emitted
    ensures RowsOutcome(rows, decode).err == RowsOutcome(rows[k + 1..], decode).err
  {
    RowsOutcomeConcat(rows, decode, k);
    RowsOutcomeFrom(rows, decode, k);
    ConcatAssoc(RowsOutcome(rows[..k], decode).emitted, decode(rows[k].value), RowsOutcome(rows[k + 1..], decode).emitted);
  }

  /** Row `k` is the first that fails to scan: the loop returns that row's error, and what
      it sent is exactly what the rows before `k` give; no row from `k` on contributes. */
  lemma {:induction false} RowsOutcomeStopsAt<T>(rows: seq<Row<T>>, decode: T -> seq<Sample>, k: nat)
    requires k < |rows| && rows[k].ScanFailed?
    requires forall j | 0 <= j < k :: rows[j].Scanned?
    ensures RowsOutcome(rows[..k], decode).err == None
    ensures RowsOutcome(rows, decode) == Outcome(RowsOutcome(rows[..k], decode).emitted, Some(rows[k].err))
  {
    if k > 0 {
      RowsOutcomeStopsAt(rows[1..], decode, k - 1);
      assert rows[..k][1..] == rows[1..][..k - 1];
    }
  }

  /** Every sample the loop sends satisfies `P` when every sample any row decodes to does. */
  lemma {:induction false} RowsOutcomeAll<T>(rows: seq<Row<T>>, decode: T -> seq<Sample>, P: Sample -> bool)
    requires forall v, i | 0 <= i < |decode(v)| :: P(decode(v)[i])
    ensures forall i | 0 <= i < |RowsOutcome(rows, decode).emitted| :: P(RowsOutcome(rows, decode).emitted[i])
  {
    if rows != [] && rows[0].Scanned? {
      RowsOutcomeAll(rows[1..], decode, P);
      var head := decode(rows[0].value);
      var tail := RowsOutcome(rows[1..], decode).emitted;
      forall i | 0 <= i < |head + tail| ensures P((head + tail)[i]) {
        if i >= |head| {
          assert (head + tail)[i] == tail[i - |head|];
        }
      }
    }
  }

  /** The error `rows.Err()` would report after the loop does not change what a probe does. */
  lemma IterationErrorIgnored<T>(rows: seq<Row<T>>, e: Option<Error>, decode: T -> seq<Sample>)
    ensures QueryOutcome(Rows(rows, e), decode) == QueryOutcome(Rows(rows, None), decode)
    ensures QueryOutcome(Rows(rows, e), decode) == RowsOutcome(rows, decode)
  {
  }
}
