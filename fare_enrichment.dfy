/** The per-record part of the trip-fare enrichment handler
    (lambda/lambda_function.py): the feature vector and request body sent to
    the fare model, the outlier decision, the enriched record, and the
    left-to-right pass over one batch of stream records. */
module FareEnrichment {
  import opened Wrappers
  import opened Json
  import opened Text
  import opened Rounding

  /** `THRESHOLD` when the environment does not set it (US dollars). */
  const DefaultThreshold: real := 10.0

  /** One stream record, reduced to `rec.get("kinesis", {}).get("data")`:
      the base64 text of the payload, `None` when the key is absent. */
  datatype StreamRecord = StreamRecord(data: Option<string>)

  /** `if not data: continue` skips an absent or empty payload. */
  predicate HasData(rec: StreamRecord)
  {
    rec.data.Some? && rec.data.value != ""
  }

  /** The deployment's environment: `SAGEMAKER_ENDPOINT`, `FIREHOSE_STREAM`
      (either may be unset) and `THRESHOLD`. */
  datatype Config = Config(endpointName: Option<string>, deliveryStream: Option<string>, threshold: real)

  /** The outside world as the handler sees it. `None` or `false` stands for
      the call raising.
      - decode: `json.loads(base64.b64decode(data).decode("utf-8"))`
      - invoke: `float(invoke_endpoint(EndpointName, Body)["Body"].read())`
        for the endpoint, the record's position in the batch and the body
      - nowMs: `int(time.time() * 1000)` while enriching the record at a position
      - putBatch: whether the k-th `put_record_batch` call returns normally
      - render: Python's `str` */
  datatype Services = Services(
    decode: string -> Option<Value>,
    invoke: (string, nat, string) -> Option<real>,
    nowMs: nat -> int,
    putBatch: nat -> bool,
    render: Value -> string)

  /** Why an invocation raises instead of returning. */
  datatype TripError =
    | DecodeError(index: nat)      // base64, UTF-8 or JSON decoding failed
    | NotAnObject(index: nat)      // the payload is JSON but not an object: `payload.get` fails
    | FareTypeError(index: nat)    // `fare - yhat` on a non-numeric fare
    | DeliveryError(call: nat)     // the k-th `put_record_batch` call raised

  const FeatureKeys: seq<string> := ["trip_distance", "passenger_count", "PULocationID", "DOLocationID"]
  const FeatureDefaults: seq<Value> := [Float(0.0), Int(1), Int(0), Int(0)]

  /** The model's input: four fields in a fixed order, each defaulted when absent. */
  function Features(payload: Object): (fv: seq<Value>)
    ensures |fv| == |FeatureKeys| == 4
    ensures forall j :: 0 <= j < 4 ==>
      fv[j] == (if FeatureKeys[j] in payload then payload[FeatureKeys[j]] else FeatureDefaults[j])
  {
    [ Get(payload, "trip_distance", Float(0.0)),
      Get(payload, "passenger_count", Int(1)),
      Get(payload, "PULocationID", Int(0)),
      Get(payload, "DOLocationID", Int(0)) ]
  }

  /** A payload with none of the four fields yields `[0.0, 1, 0, 0]`. */
  lemma FeaturesOfBarePayload(payload: Object)
    requires forall j :: 0 <= j < 4 ==> FeatureKeys[j] !in payload
    ensures Features(payload) == [Float(0.0), Int(1), Int(0), Int(0)]
  {
    assert FeatureKeys[0] !in payload && FeatureKeys[1] !in payload;
    assert FeatureKeys[2] !in payload && FeatureKeys[3] !in payload;
  }

  /** The vector reads nothing but the four feature fields. */
  lemma FeaturesReadOnlyFeatureFields(p: Object, q: Object)
    requires forall j :: 0 <= j < 4 ==>
      (FeatureKeys[j] in p <==> FeatureKeys[j] in q) &&
      (FeatureKeys[j] in p ==> p[FeatureKeys[j]] == q[FeatureKeys[j]])
    ensures Features(p) == Features(q)
  {
    var fp, fq := Features(p), Features(q);
    forall j | 0 <= j < 4 ensures fp[j] == fq[j] {
    }
  }

  function Rendered(fv: seq<Value>, render: Value -> string): (texts: seq<string>)
    ensures |texts| == |fv|
    ensures forall j :: 0 <= j < |fv| ==> texts[j] == render(fv[j])
  {
    seq(|fv|, j requires 0 <= j < |fv| => render(fv[j]))
  }

  /** `",".join(str(x) for x in features)` */
  function RequestBody(fv: seq<Value>, render: Value -> string): string
  {
    Join(',', Rendered(fv, render))
  }

  /** The body is the four rendered features separated by commas: reading it
      back as CSV gives exactly those four fields, in order, whenever no
      rendered feature holds a comma (true of every Python number). */
  lemma RequestBodyFields(payload: Object, render: Value -> string)
    requires forall j :: 0 <= j < 4 ==> ',' !in render(Features(payload)[j])
    ensures var fv := Features(payload);
      Split(RequestBody(fv, render), ',') == [render(fv[0]), render(fv[1]), render(fv[2]), render(fv[3])]
  {
    var fv := Features(payload);
    var texts := Rendered(fv, render);
    SplitJoin(texts, ',');
    assert texts == [render(fv[0]), render(fv[1]), render(fv[2]), render(fv[3])];
  }

  /** `predict_fare` under the handler's `try`: `None` when the call or the
      parse raises, including when no endpoint name is configured. */
  function PredictFare(payload: Object, index: nat, cfg: Config, svc: Services): (yhat: Option<real>)
    ensures cfg.endpointName.None? ==> yhat.None?
  {
    match cfg.endpointName
    case None => None
    case Some(name) => svc.invoke(name, index, RequestBody(Features(payload), svc.render))
  }

  /** With an endpoint configured, the prediction is the model's answer to the
      four rendered features joined by commas, in order, whatever they hold. */
  lemma PredictFareBody(payload: Object, index: nat, cfg: Config, svc: Services)
    ensures var fv := Features(payload);
      cfg.endpointName.Some? ==>
        PredictFare(payload, index, cfg, svc) ==
          svc.invoke(cfg.endpointName.value, index,
                     Join(',', [svc.render(fv[0]), svc.render(fv[1]), svc.render(fv[2]), svc.render(fv[3])]))
  {
    var fv := Features(payload);
    assert Rendered(fv, svc.render) == [svc.render(fv[0]), svc.render(fv[1]), svc.render(fv[2]), svc.render(fv[3])];
  }

  /** With an endpoint configured, the prediction is the model's answer to a
      body that reads back, field by field, as the four rendered features
      when none of them holds a comma; without one, there is no prediction. */
  lemma PredictFareRequest(payload: Object, index: nat, cfg: Config, svc: Services)
    requires forall j :: 0 <= j < 4 ==> ',' !in svc.render(Features(payload)[j])
    ensures cfg.endpointName.None? ==> PredictFare(payload, index, cfg, svc).None?
    ensures cfg.endpointName.Some? ==> exists body ::
      && PredictFare(payload, index, cfg, svc) == svc.invoke(cfg.endpointName.value, index, body)
      && Split(body, ',') == [svc.render(Features(payload)[0]), svc.render(Features(payload)[1]),
                              svc.render(Features(payload)[2]), svc.render(Features(payload)[3])]
  {
    if cfg.endpointName.Some? {
      var body := RequestBody(Features(payload), svc.render);
      RequestBodyFields(payload, svc.render);
      assert PredictFare(payload, index, cfg, svc) == svc.invoke(cfg.endpointName.value, index, body);
    }
  }

  /** The prediction reads nothing of the payload but the four feature fields. */
  lemma PredictFareReadsOnlyFeatureFields(p: Object, q: Object, index: nat, cfg: Config, svc: Services)
    requires forall j :: 0 <= j < 4 ==>
      (FeatureKeys[j] in p <==> FeatureKeys[j] in q) &&
      (FeatureKeys[j] in p ==> p[FeatureKeys[j]] == q[FeatureKeys[j]])
    ensures PredictFare(p, index, cfg, svc) == PredictFare(q, index, cfg, svc)
  {
    FeaturesReadOnlyFeatureFields(p, q);
  }

  /** The fields the handler adds to every record. */
  function Annotations(predicted: Value, absError: Value, outlier: bool, ts: int): Object
  {
    map["predicted_fare" := predicted, "abs_error" := absError, "is_outlier" := Bool(outlier), "ts" := Int(ts)]
  }

  const AddedKeys: set<string> := {"predicted_fare", "abs_error", "is_outlier", "ts"}

  /** The enriched record `{**payload, "predicted_fare": yhat, "abs_error": ...,
      "is_outlier": ..., "ts": ts}`; `None` is the `TypeError` raised by
      `fare - yhat` when there is a prediction but the fare is not a number.
      The outlier test compares the UNROUNDED difference with the threshold;
      only the stored `abs_error` is rounded to 3 decimals. */
  function Enrich(payload: Object, yhat: Option<real>, threshold: real, ts: int): (r: Option<Object>)
    ensures r.None? <==> yhat.Some? && AsNumber(Get(payload, "fare_amount", Float(0.0))).None?
    ensures r.Some? ==>
      && r.value.Keys == payload.Keys + AddedKeys
      && (forall k :: k in payload && k !in AddedKeys ==> r.value[k] == payload[k])
      && r.value["ts"] == Int(ts)
    ensures r.Some? && yhat.None? ==>
      r.value["predicted_fare"] == Null && r.value["abs_error"] == Null && r.value["is_outlier"] == Bool(false)
    ensures r.Some? && yhat.Some? ==>
      var fare := AsNumber(Get(payload, "fare_amount", Float(0.0))).value;
      && r.value["predicted_fare"] == Float(yhat.value)
      && r.value["abs_error"] == Float(RoundTo(Abs(fare - yhat.value), 3))
      && r.value["is_outlier"] == Bool(Abs(fare - yhat.value) > threshold)
  {
    match yhat
    case None => Some(payload + Annotations(Null, Null, false, ts))
    case Some(p) =>
      match AsNumber(Get(payload, "fare_amount", Float(0.0)))
      case None => None
      case Some(fare) =>
        var diff := Abs(fare - p);
        Some(payload + Annotations(Float(p), Float(RoundTo(diff, 3)), diff > threshold, ts))
  }

  /** A difference exactly at the threshold is not an outlier. */
  lemma DifferenceAtThresholdIsNoOutlier(payload: Object, p: real, threshold: real, ts: int)
    requires AsNumber(Get(payload, "fare_amount", Float(0.0))).Some?
    requires Abs(AsNumber(Get(payload, "fare_amount", Float(0.0))).value - p) == threshold
    ensures Enrich(payload, Some(p), threshold, ts).Some?
    ensures Enrich(payload, Some(p), threshold, ts).value["is_outlier"] == Bool(false)
  {
  }

  /** The stored error is never negative and agrees with the flag up to the
      rounding: an outlier's `abs_error` is at least `threshold - 0.0005`,
      and any other predicted record's is at most `threshold + 0.0005`. */
  lemma AbsErrorAgreesWithFlag(payload: Object, p: real, threshold: real, ts: int)
    requires AsNumber(Get(payload, "fare_amount", Float(0.0))).Some?
    ensures var r := Enrich(payload, Some(p), threshold, ts);
      && r.Some?
      && r.value["abs_error"].Float?
      && r.value["abs_error"].f >= 0.0
      && (r.value["is_outlier"] == Bool(true) ==> r.value["abs_error"].f >= threshold - 0.0005)
      && (r.value["is_outlier"] == Bool(false) ==> r.value["abs_error"].f <= threshold + 0.0005)
  {
    var fare := AsNumber(Get(payload, "fare_amount", Float(0.0))).value;
    var diff := Abs(fare - p);
    RoundToNonNegative(diff, 3);
    RoundToIsNearestMultiple(diff, 3);
    assert Scale(3) == 1000.0 by {
      assert Pow10(3) == 1000;
    }
  }

  /** The flag is decided before rounding: a difference of 10.0004 against a
      threshold of 10 is an outlier although the stored `abs_error` is 10.0,
      equal to the threshold. */
  lemma OutlierUsesUnroundedDifference()
    ensures var r := Enrich(map["fare_amount" := Float(30.0004)], Some(20.0), 10.0, 0);
      && r.Some?
      && r.value["abs_error"] == Float(10.0)
      && r.value["is_outlier"] == Bool(true)
  {
    assert Scale(3) == 1000.0 by {
      assert Pow10(3) == 1000;
    }
    assert (10.0004 * 1000.0).Floor == 10000;
    assert RoundHalfEven(10.0004 * Scale(3)) == 10000;
  }

  /** One step of the loop in `lambda_handler`. */
  datatype Step = Skip | Emit(doc: Object) | Raise(error: TripError)

  /** What the loop body does with the record at position `index`: skip it,
      append its enriched form to `out`, or raise out of the handler. */
  function ProcessRecord(rec: StreamRecord, index: nat, cfg: Config, svc: Services): (step: Step)
    ensures step.Skip? <==> !HasData(rec)
  {
    if !HasData(rec) then Skip
    else
      match svc.decode(rec.data.value)
      case None => Raise(DecodeError(index))
      case Some(Dict(payload)) =>
        var yhat := PredictFare(payload, index, cfg, svc);
        (match Enrich(payload, yhat, cfg.threshold, svc.nowMs(index))
         case None => Raise(FareTypeError(index))
         case Some(doc) => Emit(doc))
      case Some(_) => Raise(NotAnObject(index))
  }

  /** A failed prediction does not drop the record: it is emitted with no
      prediction, no error and `is_outlier = false`, whatever its fare. */
  lemma FailedPredictionIsStillEmitted(rec: StreamRecord, index: nat, cfg: Config, svc: Services)
    requires HasData(rec) && svc.decode(rec.data.value).Some? && svc.decode(rec.data.value).value.Dict?
    requires PredictFare(svc.decode(rec.data.value).value.fields, index, cfg, svc).None?
    ensures var step := ProcessRecord(rec, index, cfg, svc);
      && step.Emit?
      && step.doc["predicted_fare"] == Null
      && step.doc["abs_error"] == Null
      && step.doc["is_outlier"] == Bool(false)
      && (forall k :: k in svc.decode(rec.data.value).value.fields && k !in AddedKeys ==>
            k in step.doc && step.doc[k] == svc.decode(rec.data.value).value.fields[k])
  {
  }

  /** A payload that does not decode raises out of the loop: the decode is not
      inside the `try`, so the error is not isolated to the record. */
  lemma MalformedPayloadRaises(rec: StreamRecord, index: nat, cfg: Config, svc: Services)
    requires HasData(rec) && svc.decode(rec.data.value).None?
    ensures ProcessRecord(rec, index, cfg, svc) == Raise(DecodeError(index))
  {
  }

  /** The loop over the first `n` records: the list `out` built so far, or the
      error that ended the loop. */
  function EnrichUpTo(records: seq<StreamRecord>, n: nat, cfg: Config, svc: Services): Result<seq<Object>, TripError>
    requires n <= |records|
  {
    if n == 0 then Success([])
    else
      match EnrichUpTo(records, n - 1, cfg, svc)
      case Failure(e) => Failure(e)
      case Success(out) =>
        match ProcessRecord(records[n - 1], n - 1, cfg, svc)
        case Skip => Success(out)
        case Emit(doc) => Success(out + [doc])
        case Raise(e) => Failure(e)
  }

  /** The positions, in order, of the first `n` records that carry data. */
  function KeptIndices(records: seq<StreamRecord>, n: nat): (ks: seq<nat>)
    requires n <= |records|
    ensures forall j :: 0 <= j < |ks| ==> ks[j] < n && HasData(records[ks[j]])
    ensures forall j, j' :: 0 <= j < j' < |ks| ==> ks[j] < ks[j']
    ensures forall i :: 0 <= i < n && HasData(records[i]) ==> i in ks
  {
    if n == 0 then []
    else if HasData(records[n - 1]) then KeptIndices(records, n - 1) + [n - 1]
    else KeptIndices(records, n - 1)
  }

  /** Order and count: when the loop completes, `out` has one record per input
      record with data, the j-th being the enrichment of the j-th such record. */
  lemma {:induction false} EnrichedRecordsFollowInput(records: seq<StreamRecord>, n: nat, cfg: Config, svc: Services)
    requires n <= |records| && EnrichUpTo(records, n, cfg, svc).Success?
    ensures var out := EnrichUpTo(records, n, cfg, svc).value;
      var ks := KeptIndices(records, n);
      && |out| == |ks|
      && forall j :: 0 <= j < |out| ==> ProcessRecord(records[ks[j]], ks[j], cfg, svc) == Emit(out[j])
  {
    if n > 0 {
      EnrichedRecordsFollowInput(records, n - 1, cfg, svc);
    }
  }

  /** The loop raises exactly when some record raises, and then with the error
      of the first such record. */
  lemma {:induction false} EnrichRaisesAtFirstFailure(records: seq<StreamRecord>, n: nat, cfg: Config, svc: Services)
    requires n <= |records|
    ensures EnrichUpTo(records, n, cfg, svc).Failure? <==>
      exists i :: 0 <= i < n && ProcessRecord(records[i], i, cfg, svc).Raise?
    ensures EnrichUpTo(records, n, cfg, svc).Failure? ==>
      exists i :: 0 <= i < n && ProcessRecord(records[i], i, cfg, svc) == Raise(EnrichUpTo(records, n, cfg, svc).error) &&
        forall i' :: 0 <= i' < i ==> !ProcessRecord(records[i'], i', cfg, svc).Raise?
  {
    if n > 0 {
      EnrichRaisesAtFirstFailure(records, n - 1, cfg, svc);
    }
  }

  /** Once the loop has raised, later records change nothing. */
  lemma {:induction false} RaiseIsFinal(records: seq<StreamRecord>, i: nat, n: nat, cfg: Config, svc: Services)
    requires i <= n <= |records| && EnrichUpTo(records, i, cfg, svc).Failure?
    ensures EnrichUpTo(records, n, cfg, svc) == EnrichUpTo(records, i, cfg, svc)
    decreases n - i
  {
    if i < n {
      RaiseIsFinal(records, i, n - 1, cfg, svc);
    }
  }

  /** A trip of 5 miles, 2 passengers, zones 10 to 20 and a fare of 25. */
  const SampleTrip: Object := map[
    "trip_distance" := Float(5.0), "passenger_count" := Int(2),
    "PULocationID" := Int(10), "DOLocationID" := Int(20), "fare_amount" := Float(25.0)]

  /** Predicted 20 against a fare of 25 with threshold 10: error 5, no outlier. */
  lemma SampleTripNearPrediction(ts: int)
    ensures Features(SampleTrip) == [Float(5.0), Int(2), Int(10), Int(20)]
    ensures var r := Enrich(SampleTrip, Some(20.0), DefaultThreshold, ts);
      && r.Some?
      && r.value["predicted_fare"] == Float(20.0)
      && r.value["abs_error"] == Float(5.0)
      && r.value["is_outlier"] == Bool(false)
  {
    assert Scale(3) == 1000.0 by {
      assert Pow10(3) == 1000;
    }
    RoundToExact(5.0, 3, 5000);
  }

  /** Predicted 5 against a fare of 25 with threshold 10: error 20, an outlier. */
  lemma SampleTripFarFromPrediction(ts: int)
    ensures var r := Enrich(SampleTrip, Some(5.0), DefaultThreshold, ts);
      && r.Some?
      && r.value["abs_error"] == Float(20.0)
      && r.value["is_outlier"] == Bool(true)
  {
    assert Scale(3) == 1000.0 by {
      assert Pow10(3) == 1000;
    }
    RoundToExact(20.0, 3, 20000);
  }
}
