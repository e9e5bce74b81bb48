/** `lambda_handler` and `enviar_metricas_cloudwatch` of lambda.py: read every
    uploaded log file of a notification, process and count its lines, then
    publish the counters as metrics and answer with a summary. */
module LogHandler {
  import opened Wrappers
  import opened Json
  import opened Text
  import opened Rounding
  import opened TypeCounts
  import opened LogAggregation

  /** The handler's answer: status 200 with the counters (sales rounded to
      two decimals), or status 500 with the exception. */
  datatype Response =
    | Ok200(totalEvents: nat, eventsByType: Counts, totalSales: real)
    | Error500(error: LogError)
  {
    function StatusCode(): nat
    {
      if Ok200? then 200 else 500
    }
  }

  /** One entry of `metric_data`. */
  datatype Metric = Metric(name: string, value: real, unit: string, timestamp: int)

  /** The metric list for a tally: `TotalEventos`, then `VentasTotales`, then
      one `Eventos_<type>` per type in dict order, each with its own reading
      of the clock. */
  predicate DescribesTally(metrics: seq<Metric>, t: Tally, utcNow: nat -> int, render: Value -> string)
  {
    && |metrics| == 2 + |t.byType|
    && metrics[0] == Metric("TotalEventos", t.total as real, "Count", utcNow(0))
    && metrics[1] == Metric("VentasTotales", t.sales, "None", utcNow(1))
    && forall j :: 0 <= j < |t.byType| ==>
         metrics[2 + j] == Metric("Eventos_" + render(t.byType[j].0), t.byType[j].1 as real, "Count", utcNow(2 + j))
  }

  /** `metric_data` as `enviar_metricas_cloudwatch` builds it before the
      (failure-tolerant) `put_metric_data` call. */
  method BuildMetricData(t: Tally, utcNow: nat -> int, render: Value -> string) returns (metrics: seq<Metric>)
    ensures DescribesTally(metrics, t, utcNow, render)
  {
    metrics := [];
    metrics := metrics + [Metric("TotalEventos", t.total as real, "Count", utcNow(0))];
    metrics := metrics + [Metric("VentasTotales", t.sales, "None", utcNow(1))];
    var j := 0;
    while j < |t.byType|
      invariant 0 <= j <= |t.byType|
      invariant |metrics| == 2 + j
      invariant metrics[0] == Metric("TotalEventos", t.total as real, "Count", utcNow(0))
      invariant metrics[1] == Metric("VentasTotales", t.sales, "None", utcNow(1))
      invariant forall i :: 0 <= i < j ==>
        metrics[2 + i] == Metric("Eventos_" + render(t.byType[i].0), t.byType[i].1 as real, "Count", utcNow(2 + i))
    {
      var (kind, count) := t.byType[j];
      metrics := metrics + [Metric("Eventos_" + render(kind), count as real, "Count", utcNow(|metrics|))];
      j := j + 1;
    }
  }

  /** The per-type metrics of a consistent tally add up to `TotalEventos`. */
  lemma {:induction false} TypeMetricsSumToTotal(metrics: seq<Metric>, t: Tally, utcNow: nat -> int, render: Value -> string)
    requires Consistent(t) && DescribesTally(metrics, t, utcNow, render)
    ensures SumOfValues(metrics[2..]) == metrics[0].value
  {
    SumMatchesCounts(metrics[2..], t.byType);
  }

  function SumOfValues(metrics: seq<Metric>): real
  {
    if metrics == [] then 0.0 else metrics[0].value + SumOfValues(metrics[1..])
  }

  lemma {:induction false} SumMatchesCounts(metrics: seq<Metric>, d: Counts)
    requires |metrics| == |d|
    requires forall j :: 0 <= j < |d| ==> metrics[j].value == d[j].1 as real
    ensures SumOfValues(metrics) == Total(d) as real
  {
    if d != [] {
      SumMatchesCounts(metrics[1..], d[1..]);
    }
  }

  /** The handler. `effects` is what `process_log` did for each line, in order;
      `metrics` is the list handed to the metrics service (`None`: that step
      was skipped). An exception anywhere in the loops answers 500 and skips
      the metrics; otherwise the answer is 200 with the final counters and
      the sales rounded to two decimals, while the metrics carry them unrounded. */
  method HandleLogEvent(refs: seq<ObjectRef>, svc: LogServices)
    returns (response: Response, effects: seq<LogEffect>, metrics: Option<seq<Metric>>)
    ensures var s := ScanObjects(Start, refs, svc);
      && effects == s.effects
      && (s.error.Some? ==> response.StatusCode() == 500 && response == Error500(s.error.value) && metrics.None?)
      && (s.error.None? ==>
            && response.StatusCode() == 200
            && response == Ok200(s.tally.total, s.tally.byType, RoundTo(s.tally.sales, 2))
            && metrics.Some?
            && DescribesTally(metrics.value, s.tally, svc.utcNow, svc.render))
  {
    var scan := Start;
    var r := 0;
    while r < |refs|
      invariant 0 <= r <= |refs|
      invariant scan.error.None?
      invariant ScanObjects(Start, refs[..r], svc) == scan
    {
      ScanObjectsStep(Start, refs, r, svc);
      scan := ReadAndCount(scan, refs[r], svc);
      if scan.error.Some? {
        ObjectErrorEndsScan(Start, refs, r, svc);
        return Error500(scan.error.value), scan.effects, None;
      }
      r := r + 1;
    }
    assert refs[..r] == refs;
    var data := BuildMetricData(scan.tally, svc.utcNow, svc.render);
    return Ok200(scan.tally.total, scan.tally.byType, RoundTo(scan.tally.sales, 2)), scan.effects, Some(data);
  }

  /** The outer loop body: fetch one uploaded file and count its lines. */
  method ReadAndCount(scan: Scan, ref: ObjectRef, svc: LogServices) returns (next: Scan)
    requires scan.error.None?
    ensures next == ScanObject(scan, ref, svc)
  {
    var content := svc.getObject(ref.bucket, ref.key);
    if content.None? {
      return scan.(error := Some(ReadError(ref.bucket, ref.key)));
    }
    next := CountLines(scan, LinesOf(content.value), svc);
  }

  /** The inner `for line in content.strip().split('\n')` loop, stopping at
      the first line that raises. */
  method CountLines(start: Scan, lines: seq<string>, svc: LogServices) returns (scan: Scan)
    requires start.error.None?
    ensures scan == ScanLines(start, lines, svc)
  {
    scan := start;
    var j := 0;
    while j < |lines|
      invariant 0 <= j <= |lines|
      invariant scan.error.None?
      invariant ScanLines(start, lines[..j], svc) == scan
    {
      ScanLinesStep(start, lines, j, svc);
      scan := CountLine(scan, lines[j], svc);
      if scan.error.Some? {
        LineErrorEndsFile(start, lines, j, svc);
        return;
      }
      j := j + 1;
    }
    assert lines[..j] == lines;
  }

  /** The loop body for one line, statement by statement: skip an empty line;
      parse; `process_log`; `total_eventos += 1`; look up the type; bump its
      count; add the sale's `total`. */
  method CountLine(scan: Scan, line: string, svc: LogServices) returns (next: Scan)
    requires scan.error.None?
    ensures next == ScanLine(scan, line, svc)
  {
    if line == "" {
      return scan;
    }
    var entry := svc.parse(line);
    if entry.None? {
      return scan.(error := Some(JsonError(line)));
    }
    var effects := scan.effects + [ProcessLog(entry.value, |scan.effects|, svc)];
    if !entry.value.Dict? {
      return Scan(scan.tally, effects, Some(NotAnObject));
    }
    var totalEvents := scan.tally.total + 1;
    var kind := EventType(entry.value.fields);
    if !Hashable(kind) {
      return Scan(scan.tally, effects, Some(UnhashableType));
    }
    var eventsByType := Bump(scan.tally.byType, kind);
    var totalSales := scan.tally.sales;
    if kind in SaleTypes {
      var amount := AsNumber(Get(entry.value.fields, "total", Int(0)));
      if amount.None? {
        return Scan(scan.tally, effects, Some(SaleTotalTypeError));
      }
      totalSales := totalSales + amount.value;
    }
    return Scan(Tally(totalEvents, eventsByType, totalSales), effects, None);
  }

  /** A successful answer reports counts per type that add up to the total. */
  lemma SuccessfulAnswerIsConsistent(refs: seq<ObjectRef>, svc: LogServices)
    ensures var s := ScanObjects(Start, refs, svc);
      s.error.None? ==> Consistent(s.tally)
  {
    ScanObjectsConsistent(Start, refs, svc);
  }
}
