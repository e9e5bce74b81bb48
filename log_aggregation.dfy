/** The per-line work of lambda.py: `process_log` (table write and stream send,
    each under its own `try`), the counting done for each non-empty line of
    an uploaded log file, and the scan over all files of one notification. */
module LogAggregation {
  import opened Wrappers
  import opened Json
  import opened Text
  import opened DecimalConversion
  import opened TypeCounts

  /** The type counted for an entry without an `evento` field. */
  const UnknownType: Value := Str("DESCONOCIDO")

  /** The event types whose `total` adds to the sales figure. */
  const SaleTypes: seq<Value> := [Str("COMPRA"), Str("PAGO_COMPLETADO")]

  /** One object of the upload notification: `record['s3']['bucket']['name']`
      and `record['s3']['object']['key']`. */
  datatype ObjectRef = ObjectRef(bucket: string, key: string)

  /** The outside world as the handler sees it. `None` or `false` stands for
      the call raising.
      - getObject: `s3.get_object(...)['Body'].read().decode('utf-8')`
      - parse: `json.loads(line)`
      - putItem: whether `table.put_item` succeeds for the n-th processed line
      - putRecord: whether `kinesis.put_record` succeeds for the n-th processed line
      - utcNow: `datetime.utcnow()` at the j-th metric
      - render: Python's `str` (and f-string formatting) */
  datatype LogServices = LogServices(
    getObject: (string, string) -> Option<string>,
    parse: string -> Option<Value>,
    putItem: (nat, Object) -> bool,
    putRecord: (nat, StreamPut) -> bool,
    utcNow: nat -> int,
    render: Value -> string)

  /** The arguments of one `kinesis.put_record` call: the entry (sent as
      `json.dumps(log_entry)`) and its partition key. */
  datatype StreamPut = StreamPut(data: Value, partitionKey: Value)

  /** What `process_log` did for one entry: the item the table accepted, and
      the record the stream accepted (`None`: not attempted or failed). */
  datatype LogEffect = LogEffect(stored: Option<Object>, sent: Option<StreamPut>)

  /** Why the handler answers with status 500. */
  datatype LogError =
    | ReadError(bucket: string, key: string)  // `get_object` or UTF-8 decoding failed
    | JsonError(line: string)                 // `json.loads(line)` failed
    | NotAnObject                             // the entry is not an object: `log_entry.get` fails
    | UnhashableType                          // `evento` is a list or object: it cannot key a dict
    | SaleTotalTypeError                      // `ventas_totales += total` with a non-number

  /** `f"{timestamp}_{usuario_id}_{sesion_id}"`; `None` is the `KeyError` of a
      missing field. */
  function LogId(item: Object, render: Value -> string): (id: Option<string>)
    ensures id.Some? <==> "timestamp" in item && "usuario_id" in item && "sesion_id" in item
  {
    if "timestamp" in item && "usuario_id" in item && "sesion_id" in item then
      Some(render(item["timestamp"]) + "_" + render(item["usuario_id"]) + "_" + render(item["sesion_id"]))
    else None
  }

  /** The id splits back into its three fields when none of them holds `_`. */
  lemma LogIdFields(item: Object, render: Value -> string)
    requires "timestamp" in item && "usuario_id" in item && "sesion_id" in item
    requires '_' !in render(item["timestamp"]) && '_' !in render(item["usuario_id"]) && '_' !in render(item["sesion_id"])
    ensures Split(LogId(item, render).value, '_') ==
      [render(item["timestamp"]), render(item["usuario_id"]), render(item["sesion_id"])]
  {
    var parts := [render(item["timestamp"]), render(item["usuario_id"]), render(item["sesion_id"])];
    assert Join('_', parts[2..]) == parts[2];
    assert Join('_', parts[1..]) == parts[1] + "_" + parts[2];
    assert Join('_', parts) == LogId(item, render).value;
    SplitJoin(parts, '_');
  }

  /** The item `process_log` writes: the entry with floats made decimals and
      `log_id` added; `None` when building it raises (caught by the `try`). */
  function TableItem(entry: Value, render: Value -> string): Option<Object>
  {
    match ConvertFloatsToDecimal(entry)
    case Dict(item) =>
      (match LogId(item, render)
       case Some(id) => Some(item["log_id" := Str(id)])
       case None => None)
    case _ => None
  }

  /** `process_log(log_entry)`: the table write and the stream send are tried
      one after the other, each failure is caught, and nothing escapes. */
  function ProcessLog(entry: Value, n: nat, svc: LogServices): LogEffect
  {
    var stored :=
      match TableItem(entry, svc.render)
      case Some(item) => if svc.putItem(n, item) then Some(item) else None
      case None => None;
    var sent :=
      if entry.Dict? then
        var put := StreamPut(entry, Get(entry.fields, "usuario_id", Str("default")));
        if svc.putRecord(n, put) then Some(put) else None
      else None;
    LogEffect(stored, sent)
  }

  /** A failed table write does not stop the stream send: what is sent does
      not depend on the table at all, and an object entry is always sent when
      the stream accepts it. */
  lemma StreamSendIgnoresTable(entry: Value, n: nat, svc: LogServices, putItem: (nat, Object) -> bool)
    ensures ProcessLog(entry, n, svc).sent == ProcessLog(entry, n, svc.(putItem := putItem)).sent
    ensures entry.Dict? ==>
      var put := StreamPut(entry, Get(entry.fields, "usuario_id", Str("default")));
      ProcessLog(entry, n, svc).sent == (if svc.putRecord(n, put) then Some(put) else None)
  {
  }

  /** What reaches the table holds no float, carries every field of the
      entry converted and nothing else besides `log_id`, and is keyed by
      `timestamp_usuario_sesion`. */
  lemma StoredItemShape(entry: Value, n: nat, svc: LogServices)
    requires ProcessLog(entry, n, svc).stored.Some?
    ensures var item := ProcessLog(entry, n, svc).stored.value;
      && entry.Dict?
      && !HasFloat(Dict(item))
      && item.Keys == entry.fields.Keys + {"log_id"}
      && item["log_id"] == Str(LogId(ConvertFloatsToDecimal(entry).fields, svc.render).value)
      && forall k :: k in entry.fields && k != "log_id" ==> item[k] == ConvertFloatsToDecimal(entry.fields[k])
  {
    assert TableItem(entry, svc.render).Some?;
    assert ProcessLog(entry, n, svc).stored == TableItem(entry, svc.render);
    TableItemShape(entry, svc.render);
  }

  lemma TableItemShape(entry: Value, render: Value -> string)
    requires TableItem(entry, render).Some?
    ensures var item := TableItem(entry, render).value;
      && entry.Dict?
      && !HasFloat(Dict(item))
      && item.Keys == entry.fields.Keys + {"log_id"}
      && item["log_id"] == Str(LogId(ConvertFloatsToDecimal(entry).fields, render).value)
      && forall k :: k in entry.fields && k != "log_id" ==> item[k] == ConvertFloatsToDecimal(entry.fields[k])
  {
    var converted := ConvertFloatsToDecimal(entry);
    assert converted.Dict?;
    var id := LogId(converted.fields, render).value;
    var item := converted.fields["log_id" := Str(id)];
    assert TableItem(entry, render) == Some(item);
    forall k | k in item ensures !HasFloat(item[k]) {
      if k != "log_id" {
        assert item[k] == converted.fields[k];
      }
    }
  }

  /** The counters of `lambda_handler`: `total_eventos`, `eventos_por_tipo`
      and `ventas_totales`. */
  datatype Tally = Tally(total: nat, byType: Counts, sales: real)

  /** The counts per type are a dict whose counts add up to the total. */
  predicate Consistent(t: Tally)
  {
    DistinctTypes(t.byType) && Total(t.byType) == t.total
  }

  /** `log_entry.get('evento', 'DESCONOCIDO')` */
  function EventType(entry: Object): Value
  {
    Get(entry, "evento", UnknownType)
  }

  /** The counting for one parsed line, in the handler's order: the total goes
      up, then the type's count, then the sales for a sale. */
  function CountEntry(t: Tally, entry: Value): Result<Tally, LogError>
  {
    if !entry.Dict? then Failure(NotAnObject)
    else
      var kind := EventType(entry.fields);
      if !Hashable(kind) then Failure(UnhashableType)
      else if kind in SaleTypes then
        match AsNumber(Get(entry.fields, "total", Int(0)))
        case None => Failure(SaleTotalTypeError)
        case Some(amount) => Success(Tally(t.total + 1, Bump(t.byType, kind), t.sales + amount))
      else Success(Tally(t.total + 1, Bump(t.byType, kind), t.sales))
  }

  /** A counted line adds one to the total and one to its own type's count,
      leaves every other type's count alone, keeps the tally consistent, and
      changes the sales exactly for a sale, by its `total` (0 when absent). */
  lemma CountEntryEffect(t: Tally, entry: Value)
    requires Consistent(t) && CountEntry(t, entry).Success?
    ensures var t' := CountEntry(t, entry).value;
      var kind := EventType(entry.fields);
      && Consistent(t')
      && t'.total == t.total + 1
      && CountOf(t'.byType, kind) == CountOf(t.byType, kind) + 1
      && (forall u :: !SameKey(u, kind) ==> CountOf(t'.byType, u) == CountOf(t.byType, u))
      && (kind in SaleTypes ==> t'.sales == t.sales + AsNumber(Get(entry.fields, "total", Int(0))).value)
      && (kind !in SaleTypes ==> t'.sales == t.sales)
  {
    BumpKeepsDistinct(t.byType, EventType(entry.fields));
  }

  /** The handler's progress: the counters, what `process_log` did for each
      line so far, and the exception that ended the scan, if any. */
  datatype Scan = Scan(tally: Tally, effects: seq<LogEffect>, error: Option<LogError>)

  /** The state before the first record. */
  const Start: Scan := Scan(Tally(0, [], 0.0), [], None)

  /** The loop body for one line: empty lines are skipped; any other line is
      parsed, handed to `process_log`, then counted. */
  function ScanLine(s: Scan, line: string, svc: LogServices): Scan
  {
    if s.error.Some? || line == "" then s
    else
      match svc.parse(line)
      case None => s.(error := Some(JsonError(line)))
      case Some(entry) =>
        var effects := s.effects + [ProcessLog(entry, |s.effects|, svc)];
        match CountEntry(s.tally, entry)
        case Failure(e) => Scan(s.tally, effects, Some(e))
        case Success(t) => Scan(t, effects, None)
  }

  /** The inner loop over the lines of one file, left to right. */
  function ScanLines(s: Scan, lines: seq<string>, svc: LogServices): Scan
  {
    if lines == [] then s else ScanLine(ScanLines(s, lines[..|lines| - 1], svc), lines[|lines| - 1], svc)
  }

  /** `content.strip().split('\n')`: the stripped content cut at line breaks,
      each piece free of them, and joined back it is the stripped content. */
  function LinesOf(content: string): (lines: seq<string>)
    ensures |lines| >= 1
    ensures forall j :: 0 <= j < |lines| ==> '\n' !in lines[j]
    ensures Join('\n', lines) == Strip(content)
  {
    JoinSplit(Strip(content), '\n');
    Split(Strip(content), '\n')
  }

  /** The outer loop body for one object: read it, then scan its lines. */
  function ScanObject(s: Scan, ref: ObjectRef, svc: LogServices): Scan
  {
    if s.error.Some? then s
    else
      match svc.getObject(ref.bucket, ref.key)
      case None => s.(error := Some(ReadError(ref.bucket, ref.key)))
      case Some(content) => ScanLines(s, LinesOf(content), svc)
  }

  /** The outer loop over the objects of the notification, left to right. */
  function ScanObjects(s: Scan, refs: seq<ObjectRef>, svc: LogServices): Scan
  {
    if refs == [] then s else ScanObject(ScanObjects(s, refs[..|refs| - 1], svc), refs[|refs| - 1], svc)
  }

  /** The number of non-empty strings in `lines`. */
  function NonEmptyCount(lines: seq<string>): nat
  {
    if lines == [] then 0
    else NonEmptyCount(lines[..|lines| - 1]) + (if lines[|lines| - 1] != "" then 1 else 0)
  }

  /** Once the scan has raised, nothing more happens. */
  lemma {:induction false} ErrorIsFinal(s: Scan, lines: seq<string>, svc: LogServices)
    requires s.error.Some?
    ensures ScanLines(s, lines, svc) == s
  {
    if lines != [] {
      ErrorIsFinal(s, lines[..|lines| - 1], svc);
    }
  }

  lemma {:induction false} ErrorIsFinalAcrossObjects(s: Scan, refs: seq<ObjectRef>, svc: LogServices)
    requires s.error.Some?
    ensures ScanObjects(s, refs, svc) == s
  {
    if refs != [] {
      ErrorIsFinalAcrossObjects(s, refs[..|refs| - 1], svc);
    }
  }

  /** A file scanned without error counts each non-empty line exactly once,
      calls `process_log` once per such line, and keeps the tally consistent. */
  lemma {:induction false} ScanLinesCountsEachLine(s: Scan, lines: seq<string>, svc: LogServices)
    requires s.error.None? && Consistent(s.tally)
    ensures Consistent(ScanLines(s, lines, svc).tally)
    ensures ScanLines(s, lines, svc).error.None? ==>
      && ScanLines(s, lines, svc).tally.total == s.tally.total + NonEmptyCount(lines)
      && |ScanLines(s, lines, svc).effects| == |s.effects| + NonEmptyCount(lines)
  {
    if lines != [] {
      var before := ScanLines(s, lines[..|lines| - 1], svc);
      ScanLinesCountsEachLine(s, lines[..|lines| - 1], svc);
      if before.error.None? {
        var line := lines[|lines| - 1];
        if line != "" && svc.parse(line).Some? && CountEntry(before.tally, svc.parse(line).value).Success? {
          CountEntryEffect(before.tally, svc.parse(line).value);
        }
      } else {
        assert ScanLines(s, lines, svc) == before;
      }
    }
  }

  /** The whole scan keeps the counts per type summing to the total. */
  lemma {:induction false} ScanObjectsConsistent(s: Scan, refs: seq<ObjectRef>, svc: LogServices)
    requires s.error.None? && Consistent(s.tally)
    ensures Consistent(ScanObjects(s, refs, svc).tally)
  {
    if refs != [] {
      var before := ScanObjects(s, refs[..|refs| - 1], svc);
      ScanObjectsConsistent(s, refs[..|refs| - 1], svc);
      var ref := refs[|refs| - 1];
      if before.error.None? && svc.getObject(ref.bucket, ref.key).Some? {
        ScanLinesCountsEachLine(before, LinesOf(svc.getObject(ref.bucket, ref.key).value), svc);
      }
    }
  }

  /** The scan of a longer prefix of objects is one more step. */
  lemma ScanObjectsStep(s: Scan, refs: seq<ObjectRef>, r: nat, svc: LogServices)
    requires r < |refs|
    ensures ScanObjects(s, refs[..r + 1], svc) == ScanObject(ScanObjects(s, refs[..r], svc), refs[r], svc)
  {
    assert refs[..r + 1][..r] == refs[..r];
  }

  /** An error after `r + 1` objects is the error of the whole scan. */
  lemma ObjectErrorEndsScan(s: Scan, refs: seq<ObjectRef>, r: nat, svc: LogServices)
    requires r < |refs| && ScanObjects(s, refs[..r + 1], svc).error.Some?
    ensures ScanObjects(s, refs, svc) == ScanObjects(s, refs[..r + 1], svc)
  {
    var failed := ScanObjects(s, refs[..r + 1], svc);
    ErrorIsFinalAcrossObjects(failed, refs[r + 1..], svc);
    AppendObjects(s, refs[..r + 1], refs[r + 1..], svc);
    assert refs[..r + 1] + refs[r + 1..] == refs;
  }

  /** The scan of a longer prefix of lines is one more step. */
  lemma ScanLinesStep(s: Scan, lines: seq<string>, j: nat, svc: LogServices)
    requires j < |lines|
    ensures ScanLines(s, lines[..j + 1], svc) == ScanLine(ScanLines(s, lines[..j], svc), lines[j], svc)
  {
    assert lines[..j + 1][..j] == lines[..j];
  }

  /** An error at line `j` is the error of the whole file. */
  lemma LineErrorEndsFile(s: Scan, lines: seq<string>, j: nat, svc: LogServices)
    requires j < |lines| && ScanLines(s, lines[..j + 1], svc).error.Some?
    ensures ScanLines(s, lines, svc) == ScanLines(s, lines[..j + 1], svc)
  {
    var failed := ScanLines(s, lines[..j + 1], svc);
    ErrorIsFinal(failed, lines[j + 1..], svc);
    AppendLines(s, lines[..j + 1], lines[j + 1..], svc);
    assert lines[..j + 1] + lines[j + 1..] == lines;
  }

  lemma {:induction false} AppendLines(s: Scan, a: seq<string>, b: seq<string>, svc: LogServices)
    ensures ScanLines(s, a + b, svc) == ScanLines(ScanLines(s, a, svc), b, svc)
    decreases |b|
  {
    if b == [] {
      assert a + b == a;
    } else {
      AppendLines(s, a, b[..|b| - 1], svc);
      assert (a + b)[..|a + b| - 1] == a + b[..|b| - 1];
    }
  }

  lemma {:induction false} AppendObjects(s: Scan, a: seq<ObjectRef>, b: seq<ObjectRef>, svc: LogServices)
    ensures ScanObjects(s, a + b, svc) == ScanObjects(ScanObjects(s, a, svc), b, svc)
    decreases |b|
  {
    if b == [] {
      assert a + b == a;
    } else {
      AppendObjects(s, a, b[..|b| - 1], svc);
      assert (a + b)[..|a + b| - 1] == a + b[..|b| - 1];
    }
  }
}
