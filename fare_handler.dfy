/** `lambda_handler` of lambda/lambda_function.py: enrich a batch of stream
    records in order, then hand the enriched list to the delivery stream in
    slices of at most 400 records. */
module FareHandler {
  import opened Wrappers
  import opened Json
  import opened Chunking
  import opened FareEnrichment

  /** The handler's return value `{"ok": True, "n": len(out)}`. */
  datatype Summary = Summary(ok: bool, n: nat)

  /** `if out and FIREHOSE_STREAM`: delivery needs a non-empty stream name. */
  predicate DeliveryConfigured(cfg: Config)
  {
    cfg.deliveryStream.Some? && cfg.deliveryStream.value != ""
  }

  /** The loop over the whole batch. */
  function EnrichAll(records: seq<StreamRecord>, cfg: Config, svc: Services): Result<seq<Object>, TripError>
  {
    EnrichUpTo(records, |records|, cfg, svc)
  }

  /** The first of the calls `from .. count-1` that raises, or `count` if none does. */
  function FirstRefused(accepts: nat -> bool, from: nat, count: nat): (k: nat)
    requires from <= count
    ensures from <= k <= count
    ensures forall j :: from <= j < k ==> accepts(j)
    ensures k < count ==> !accepts(k)
    decreases count - from
  {
    if from == count || !accepts(from) then from else FirstRefused(accepts, from + 1, count)
  }

  /** The first refusal is the one after an unbroken run of acceptances. */
  lemma FirstRefusedAt(accepts: nat -> bool, count: nat, k: nat)
    requires k <= count
    requires forall j :: 0 <= j < k ==> accepts(j)
    requires k < count ==> !accepts(k)
    ensures FirstRefused(accepts, 0, count) == k
  {
  }

  /** The handler. `calls` lists the record slices passed to `put_record_batch`,
      in call order, including a call that raised.
      - A record that raises while being enriched ends the invocation with that
        error before any delivery call.
      - Otherwise, with records to send and a stream configured, the slices are
        `Chunks(out)`: `ceil(n / 400)` calls that together are `out`; a call
        that raises ends the invocation and later slices are not sent.
      - Otherwise no call is made. Every normal return reports `n = |out|`. */
  method HandleTripBatch(records: seq<StreamRecord>, cfg: Config, svc: Services)
    returns (result: Result<Summary, TripError>, calls: seq<seq<Object>>)
    ensures EnrichAll(records, cfg, svc).Failure? ==>
      result == Failure(EnrichAll(records, cfg, svc).error) && calls == []
    ensures EnrichAll(records, cfg, svc).Success? ==>
      var out := EnrichAll(records, cfg, svc).value;
      if out == [] || !DeliveryConfigured(cfg) then
        result == Success(Summary(true, |out|)) && calls == []
      else
        var k := FirstRefused(svc.putBatch, 0, |Chunks(out)|);
        if k == |Chunks(out)| then
          result == Success(Summary(true, |out|)) && calls == Chunks(out)
        else
          result == Failure(DeliveryError(k)) && calls == Chunks(out)[..k + 1]
  {
    var enriched := EnrichBatch(records, cfg, svc);
    if enriched.Failure? {
      return Failure(enriched.error), [];
    }
    var out := enriched.value;
    calls := [];
    result := Success(Summary(true, |out|));
    if out != [] && DeliveryConfigured(cfg) {
      var refused;
      refused, calls := DeliverInSlices(out, svc.putBatch);
      if refused.Some? {
        result := Failure(DeliveryError(refused.value));
      }
    }
  }

  /** The `for rec in event["Records"]` loop: builds `out` record by record,
      or stops at the first record that raises. */
  method EnrichBatch(records: seq<StreamRecord>, cfg: Config, svc: Services)
    returns (result: Result<seq<Object>, TripError>)
    ensures result == EnrichAll(records, cfg, svc)
  {
    var out: seq<Object> := [];
    var i := 0;
    while i < |records|
      invariant 0 <= i <= |records|
      invariant EnrichUpTo(records, i, cfg, svc) == Success(out)
    {
      var data := records[i].data;
      if data.None? || data.value == "" {
        assert ProcessRecord(records[i], i, cfg, svc) == Skip;
        i := i + 1;
        continue;
      }
      var decoded := svc.decode(data.value);
      if decoded.None? || !decoded.value.Dict? {
        var error := if decoded.None? then DecodeError(i) else NotAnObject(i);
        assert ProcessRecord(records[i], i, cfg, svc) == Raise(error);
        RaiseIsFinal(records, i + 1, |records|, cfg, svc);
        return Failure(error);
      }
      var payload := decoded.value.fields;
      var yhat := PredictFare(payload, i, cfg, svc);
      var doc := Enrich(payload, yhat, cfg.threshold, svc.nowMs(i));
      if doc.None? {
        assert ProcessRecord(records[i], i, cfg, svc) == Raise(FareTypeError(i));
        RaiseIsFinal(records, i + 1, |records|, cfg, svc);
        return Failure(FareTypeError(i));
      }
      assert ProcessRecord(records[i], i, cfg, svc) == Emit(doc.value);
      out := out + [doc.value];
      i := i + 1;
    }
    return Success(out);
  }

  /** The `for i in range(0, len(out), 400)` loop: one call per slice, in
      order, stopping at the first call that raises (`refused` is its number). */
  method DeliverInSlices(out: seq<Object>, accepts: nat -> bool)
    returns (refused: Option<nat>, calls: seq<seq<Object>>)
    ensures var k := FirstRefused(accepts, 0, |Chunks(out)|);
      if k == |Chunks(out)| then refused == None && calls == Chunks(out)
      else refused == Some(k) && calls == Chunks(out)[..k + 1]
  {
    ghost var chunks := Chunks(out);
    calls := [];
    var start := 0;
    var k := 0;
    SliceExists(|out|, 0);
    while start < |out|
      invariant start == k * MaxBatch
      invariant k <= |chunks|
      invariant k < |chunks| <==> start < |out|
      invariant calls == chunks[..k]
      invariant forall j :: 0 <= j < k ==> accepts(j)
    {
      ChunkAt(out, k);
      var end := if start + MaxBatch <= |out| then start + MaxBatch else |out|;
      assert out[start..end] == chunks[k];
      assert chunks[..k + 1] == chunks[..k] + [chunks[k]];
      calls := calls + [out[start..end]];
      if !accepts(k) {
        FirstRefusedAt(accepts, |chunks|, k);
        return Some(k), calls;
      }
      SliceExists(|out|, k + 1);
      start := start + MaxBatch;
      k := k + 1;
    }
    assert k == |chunks|;
    FirstRefusedAt(accepts, |chunks|, k);
    assert calls == chunks;
    refused := None;
  }

  /** A single malformed payload anywhere in the batch ends the invocation
      with an error and, since delivery comes after the loop, nothing of the
      batch is delivered, not even the records before it. */
  lemma MalformedPayloadAbortsBatch(records: seq<StreamRecord>, i: nat, cfg: Config, svc: Services)
    requires i < |records| && HasData(records[i]) && svc.decode(records[i].data.value).None?
    ensures EnrichAll(records, cfg, svc).Failure?
  {
    MalformedPayloadRaises(records[i], i, cfg, svc);
    EnrichRaisesAtFirstFailure(records, |records|, cfg, svc);
  }

  /** A batch where every record decodes to an object with a numeric (or no)
      fare gets through the enrichment loop, with one output per record with
      data: the failures of the model call are all absorbed. (Delivery comes
      after, and a raising delivery call still ends the invocation.) */
  lemma WellFormedBatchCompletes(records: seq<StreamRecord>, cfg: Config, svc: Services)
    requires forall i :: 0 <= i < |records| && HasData(records[i]) ==>
      && svc.decode(records[i].data.value).Some?
      && svc.decode(records[i].data.value).value.Dict?
      && AsNumber(Get(svc.decode(records[i].data.value).value.fields, "fare_amount", Float(0.0))).Some?
    ensures EnrichAll(records, cfg, svc).Success?
    ensures |EnrichAll(records, cfg, svc).value| == |KeptIndices(records, |records|)|
  {
    EnrichRaisesAtFirstFailure(records, |records|, cfg, svc);
    EnrichedRecordsFollowInput(records, |records|, cfg, svc);
  }
}
