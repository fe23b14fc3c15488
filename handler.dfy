/**
 * The Lambda entry point: read `bucket` and `key` from the event, fetch the object,
 * decode it, shrink it to the configured bounds, encode it, and store it under the
 * derived key in the output bucket, turning every failure into an error response.
 *
 * The object store and the image library are collaborators whose behaviour is not
 * visible here; each is a total function that either yields a value or fails with
 * the text of the exception it raised.
 */
module LambdaHandler {
  import opened Values
  import opened ThumbnailNaming

  /** A decoded image, as far as the handler observes it. */
  datatype Image = Image(width: nat, height: nat, format: Option<string>, pixels: Bytes)

  /** Process-wide settings read once at start-up: `OUTPUT_BUCKET`, `THUMB_W`, `THUMB_H`. */
  datatype Config = Config(outputBucket: string, thumbWidth: int, thumbHeight: int)

  /** The incoming event's string fields. */
  type Event = map<string, string>

  /** The object-store client and the image library, each call able to raise. */
  datatype Services = Services(
    getObject: (string, string) -> Result<Bytes>,
    open: Bytes -> Result<Image>,
    thumbnail: (Image, int, int) -> Result<Image>,
    save: (Image, string) -> Result<Bytes>,
    putObject: (string, string, Bytes, string) -> Result<()>)

  /** One call into a collaborator, with its arguments. */
  datatype Call =
    | GetObject(bucket: string, key: string)
    | Open(data: Bytes)
    | Thumbnail(image: Image, maxWidth: int, maxHeight: int)
    | Save(image: Image, format: string)
    | PutObject(bucket: string, key: string, body: Bytes, contentType: string)

  /** What the handler returns: `{status: success, file}` or `{status: error, message}`. */
  datatype Response = Success(file: string) | Error(message: string)

  /** A response together with the collaborator calls made to produce it, in order. */
  datatype Run = Run(response: Response, calls: seq<Call>)

  /** The text of Python's `KeyError` for a missing field: the field name in quotes. */
  function KeyErrorText(field: string): (text: string)
    ensures |text| == |field| + 2 && text[0] == text[|text| - 1] == '\''
    ensures text[1..|text| - 1] == field
  {
    var text := "'" + field + "'";
    assert text[1..|text| - 1] == field;
    text
  }

  /**
   * The handler's whole behaviour for one event, as a response and a call trace.
   * The output key is a pure function of the source key, so deriving it before the
   * calls instead of between the encode and the store changes nothing observable.
   */
  function Invoke(cfg: Config, svc: Services, event: Event): Run {
    if "bucket" !in event then Run(Error(KeyErrorText("bucket")), [])
    else if "key" !in event then Run(Error(KeyErrorText("key")), [])
    else Pipeline(cfg, svc, event["bucket"], event["key"], OutputKey(event["key"]))
  }

  /**
   * The body of the `try` block once both fields are read: fetch, decode, shrink,
   * encode, store under `outputKey`; the first call that raises ends the run with its message.
   */
  function Pipeline(cfg: Config, svc: Services, srcBucket: string, srcKey: string, outputKey: string): Run {
    var t1 := [GetObject(srcBucket, srcKey)];
    match svc.getObject(srcBucket, srcKey)
    case Err(m) => Run(Error(m), t1)
    case Ok(data) =>
      var t2 := t1 + [Open(data)];
      match svc.open(data)
      case Err(m) => Run(Error(m), t2)
      case Ok(img) =>
        var t3 := t2 + [Thumbnail(img, cfg.thumbWidth, cfg.thumbHeight)];
        match svc.thumbnail(img, cfg.thumbWidth, cfg.thumbHeight)
        case Err(m) => Run(Error(m), t3)
        case Ok(thumb) =>
          var format := EncodeFormat(thumb.format);
          var t4 := t3 + [Save(thumb, format)];
          match svc.save(thumb, format)
          case Err(m) => Run(Error(m), t4)
          case Ok(body) =>
            var t5 := t4 + [PutObject(cfg.outputBucket, outputKey, body, ContentType(format))];
            match svc.putObject(cfg.outputBucket, outputKey, body, ContentType(format))
            case Err(m) => Run(Error(m), t5)
            case Ok(_) => Run(Success(outputKey), t5)
  }

  /** Which step of the pipeline a call belongs to, in the order the handler makes them. */
  function Stage(c: Call): nat {
    match c
    case GetObject(_, _) => 0
    case Open(_) => 1
    case Thumbnail(_, _, _) => 2
    case Save(_, _) => 3
    case PutObject(_, _, _, _) => 4
  }

  /** The collaborator's answer to a call, without its value: it returned, or it raised with a message. */
  function Answer(svc: Services, c: Call): Result<()> {
    match c
    case GetObject(b, k) => Drop(svc.getObject(b, k))
    case Open(data) => Drop(svc.open(data))
    case Thumbnail(img, w, h) => Drop(svc.thumbnail(img, w, h))
    case Save(img, format) => Drop(svc.save(img, format))
    case PutObject(b, k, body, ct) => svc.putObject(b, k, body, ct)
  }

  function Drop<T>(r: Result<T>): Result<()> {
    if r.Ok? then Ok(()) else Err(r.message)
  }

  /** How many calls of a trace belong to a stage. */
  function Occurrences(calls: seq<Call>, stage: nat): nat {
    if calls == [] then 0
    else Occurrences(calls[..|calls| - 1], stage) + (if Stage(calls[|calls| - 1]) == stage then 1 else 0)
  }

  /** A trace whose i-th call is of stage i holds at most one call of each stage. */
  lemma {:induction false} OccurrencesInOrder(calls: seq<Call>, stage: nat)
    requires forall i :: 0 <= i < |calls| ==> Stage(calls[i]) == i
    ensures Occurrences(calls, stage) == if stage < |calls| then 1 else 0
  {
    if calls != [] {
      OccurrencesInOrder(calls[..|calls| - 1], stage);
    }
  }

  /**
   * The pipeline's calls, branch by branch: the stages up to and including the first
   * that raised (or all five), in order; the response is that call's message, or
   * success with the output key.
   */
  lemma PipelineTrace(cfg: Config, svc: Services, srcBucket: string, srcKey: string, outputKey: string)
    ensures var run := Pipeline(cfg, svc, srcBucket, srcKey, outputKey);
            var calls := run.calls;
            1 <= |calls| <= 5 &&
            calls[0] == GetObject(srcBucket, srcKey) &&
            (forall i :: 0 <= i < |calls| ==> Stage(calls[i]) == i) &&
            (forall i :: 0 <= i < |calls| - 1 ==> Answer(svc, calls[i]).Ok?) &&
            (run.response.Success? <==> |calls| == 5 && Answer(svc, calls[4]).Ok?) &&
            (run.response.Success? ==> run.response.file == outputKey) &&
            (run.response.Error? ==> Answer(svc, calls[|calls| - 1]) == Err(run.response.message))
  {
    var calls := Pipeline(cfg, svc, srcBucket, srcKey, outputKey).calls;
    var c1 := GetObject(srcBucket, srcKey);
    match svc.getObject(srcBucket, srcKey)
    case Err(_) =>
      assert calls == [c1];
    case Ok(data) =>
      var c2 := Open(data);
      match svc.open(data)
      case Err(_) =>
        assert calls == [c1, c2];
      case Ok(img) =>
        var c3 := Thumbnail(img, cfg.thumbWidth, cfg.thumbHeight);
        match svc.thumbnail(img, cfg.thumbWidth, cfg.thumbHeight)
        case Err(_) =>
          assert calls == [c1, c2, c3];
        case Ok(thumb) =>
          var format := EncodeFormat(thumb.format);
          var c4 := Save(thumb, format);
          match svc.save(thumb, format)
          case Err(_) =>
            assert calls == [c1, c2, c3, c4];
          case Ok(body) =>
            assert calls == [c1, c2, c3, c4, PutObject(cfg.outputBucket, outputKey, body, ContentType(format))];
  }

  /**
   * Each call of the pipeline takes its arguments from what the one before returned,
   * and the store goes to the output bucket under `outputKey`.
   */
  lemma PipelineDataFlow(cfg: Config, svc: Services, srcBucket: string, srcKey: string, outputKey: string)
    ensures var calls := Pipeline(cfg, svc, srcBucket, srcKey, outputKey).calls;
            (|calls| > 1 ==> calls[1] == Open(svc.getObject(srcBucket, srcKey).value)) &&
            (|calls| > 2 ==> calls[2] == Thumbnail(svc.open(calls[1].data).value, cfg.thumbWidth, cfg.thumbHeight)) &&
            (|calls| > 3 ==>
               var thumb := svc.thumbnail(calls[2].image, calls[2].maxWidth, calls[2].maxHeight).value;
               calls[3] == Save(thumb, EncodeFormat(thumb.format))) &&
            (|calls| > 4 ==>
               calls[4] == PutObject(cfg.outputBucket, outputKey,
                                     svc.save(calls[3].image, calls[3].format).value, ContentType(calls[3].format)))
  {
    var calls := Pipeline(cfg, svc, srcBucket, srcKey, outputKey).calls;
    var c1 := GetObject(srcBucket, srcKey);
    match svc.getObject(srcBucket, srcKey)
    case Err(_) =>
      assert calls == [c1];
    case Ok(data) =>
      var c2 := Open(data);
      match svc.open(data)
      case Err(_) =>
        assert calls == [c1, c2];
      case Ok(img) =>
        var c3 := Thumbnail(img, cfg.thumbWidth, cfg.thumbHeight);
        match svc.thumbnail(img, cfg.thumbWidth, cfg.thumbHeight)
        case Err(_) =>
          assert calls == [c1, c2, c3];
        case Ok(thumb) =>
          var format := EncodeFormat(thumb.format);
          var c4 := Save(thumb, format);
          match svc.save(thumb, format)
          case Err(_) =>
            assert calls == [c1, c2, c3, c4];
          case Ok(body) =>
            assert calls == [c1, c2, c3, c4, PutObject(cfg.outputBucket, outputKey, body, ContentType(format))];
  }

  /**
   * Both event fields are read before any collaborator is called: a missing field
   * yields the `KeyError` text of the first one missing and no call at all, and
   * with both present the first call fetches exactly the named object.
   */
  lemma FieldsReadFirst(cfg: Config, svc: Services, event: Event)
    ensures var run := Invoke(cfg, svc, event);
            (run.calls == [] <==> "bucket" !in event || "key" !in event) &&
            ("bucket" !in event ==> run.response == Error("'bucket'")) &&
            ("bucket" in event && "key" !in event ==> run.response == Error("'key'")) &&
            (run.calls != [] ==> run.calls[0] == GetObject(event["bucket"], event["key"]))
  {
    assert KeyErrorText("bucket") == "'bucket'";
    assert KeyErrorText("key") == "'key'";
    if "bucket" in event && "key" in event {
      PipelineTrace(cfg, svc, event["bucket"], event["key"], OutputKey(event["key"]));
    }
  }

  /**
   * Calls follow the pipeline order, each stage at most once, and a call is made
   * only when every earlier call returned.
   */
  lemma CallsFollowPipeline(cfg: Config, svc: Services, event: Event)
    ensures var calls := Invoke(cfg, svc, event).calls;
            |calls| <= 5 &&
            (forall i :: 0 <= i < |calls| ==> Stage(calls[i]) == i) &&
            (forall i :: 0 <= i < |calls| - 1 ==> Answer(svc, calls[i]).Ok?)
  {
    if "bucket" in event && "key" in event {
      PipelineTrace(cfg, svc, event["bucket"], event["key"], OutputKey(event["key"]));
    }
  }

  /** At most one fetch and at most one store per invocation. */
  lemma AtMostOneFetchAndStore(cfg: Config, svc: Services, event: Event)
    ensures var calls := Invoke(cfg, svc, event).calls;
            Occurrences(calls, Stage(GetObject([], []))) <= 1 &&
            Occurrences(calls, Stage(PutObject([], [], [], []))) <= 1
  {
    var calls := Invoke(cfg, svc, event).calls;
    CallsFollowPipeline(cfg, svc, event);
    OccurrencesInOrder(calls, 0);
    OccurrencesInOrder(calls, 4);
  }

  /**
   * The outcome is success exactly when all five calls were made and all returned;
   * otherwise the response is an error carrying the message of the call that raised
   * (or of the missing field), and that call was the last one made.
   */
  lemma ResponseReflectsCalls(cfg: Config, svc: Services, event: Event)
    ensures var run := Invoke(cfg, svc, event);
            (run.response.Success? <==> |run.calls| == 5 && forall i :: 0 <= i < 5 ==> Answer(svc, run.calls[i]).Ok?) &&
            (run.response.Error? && run.calls != [] ==>
               Answer(svc, run.calls[|run.calls| - 1]) == Err(run.response.message))
  {
    if "bucket" in event && "key" in event {
      PipelineTrace(cfg, svc, event["bucket"], event["key"], OutputKey(event["key"]));
    }
  }

  /**
   * Each call works on what the previous one returned: the object's bytes are decoded,
   * the decoded image is shrunk to the configured bounds, the shrunk image is encoded
   * in its own or the default format, and the encoded bytes are stored in the output
   * bucket under the key derived from the source key, labelled with that format.
   */
  lemma DataFlowsThroughPipeline(cfg: Config, svc: Services, event: Event)
    ensures var calls := Invoke(cfg, svc, event).calls;
            (|calls| > 1 ==> calls[1] == Open(svc.getObject(calls[0].bucket, calls[0].key).value)) &&
            (|calls| > 2 ==> calls[2] == Thumbnail(svc.open(calls[1].data).value, cfg.thumbWidth, cfg.thumbHeight)) &&
            (|calls| > 3 ==>
               var thumb := svc.thumbnail(calls[2].image, calls[2].maxWidth, calls[2].maxHeight).value;
               calls[3] == Save(thumb, EncodeFormat(thumb.format))) &&
            (|calls| > 4 ==>
               calls[4] == PutObject(cfg.outputBucket, OutputKey(event["key"]),
                                     svc.save(calls[3].image, calls[3].format).value, ContentType(calls[3].format)))
  {
    if "bucket" in event && "key" in event {
      PipelineDataFlow(cfg, svc, event["bucket"], event["key"], OutputKey(event["key"]));
    }
  }

  /**
   * A successful invocation fetched once and stored once, in the output bucket, and
   * reports as `file` the very key it stored under: the thumbnail key of the source key.
   */
  lemma SuccessfulInvocation(cfg: Config, svc: Services, event: Event)
    requires Invoke(cfg, svc, event).response.Success?
    ensures var run := Invoke(cfg, svc, event);
            "bucket" in event && "key" in event &&
            Occurrences(run.calls, 0) == 1 && Occurrences(run.calls, 4) == 1 &&
            run.calls[0] == GetObject(event["bucket"], event["key"]) &&
            run.calls[4].PutObject? && run.calls[4].bucket == cfg.outputBucket &&
            run.response.file == run.calls[4].key == OutputKey(event["key"])
  {
    var calls := Invoke(cfg, svc, event).calls;
    PipelineTrace(cfg, svc, event["bucket"], event["key"], OutputKey(event["key"]));
    OccurrencesInOrder(calls, 0);
    OccurrencesInOrder(calls, 4);
  }

  /**
   * The reported file depends on the source key alone: not on the source bucket, the
   * configuration, the image or its detected format.
   */
  lemma FileDependsOnlyOnKey(cfg1: Config, svc1: Services, event1: Event, cfg2: Config, svc2: Services, event2: Event)
    requires Invoke(cfg1, svc1, event1).response.Success? && Invoke(cfg2, svc2, event2).response.Success?
    requires event1["key"] == event2["key"]
    ensures Invoke(cfg1, svc1, event1).response == Invoke(cfg2, svc2, event2).response
  {
    SuccessfulInvocation(cfg1, svc1, event1);
    SuccessfulInvocation(cfg2, svc2, event2);
  }

  /**
   * An image library whose thumbnail step, when it returns, fits the image in the
   * bounds without enlarging it. This is assumed of the library, not proved here.
   */
  ghost predicate ShrinksToFit(svc: Services) {
    forall img, w, h :: svc.thumbnail(img, w, h).Ok? ==>
      var t := svc.thumbnail(img, w, h).value;
      t.width <= w && t.height <= h && t.width <= img.width && t.height <= img.height
  }

  /** Under that assumption, the image handed to the encoder is within the configured bounds and no larger than the decoded one. */
  lemma EncodedImageWithinBounds(cfg: Config, svc: Services, event: Event)
    requires ShrinksToFit(svc)
    ensures var calls := Invoke(cfg, svc, event).calls;
            |calls| > 3 ==>
              calls[3].image.width <= cfg.thumbWidth && calls[3].image.height <= cfg.thumbHeight &&
              calls[3].image.width <= calls[2].image.width && calls[3].image.height <= calls[2].image.height
  {
    DataFlowsThroughPipeline(cfg, svc, event);
  }

  /**
   * An image library whose thumbnail step, when it returns, keeps the format the
   * decoder detected, as shrinking an image in place does. Assumed, not proved here.
   */
  ghost predicate KeepsFormat(svc: Services) {
    forall img, w, h :: svc.thumbnail(img, w, h).Ok? ==> svc.thumbnail(img, w, h).value.format == img.format
  }

  /**
   * Under that assumption, the encoder format and the stored content type are those of
   * the format the decoder detected, or JPEG when it detected none.
   */
  lemma StoredFormatIsDecodedFormat(cfg: Config, svc: Services, event: Event)
    requires KeepsFormat(svc)
    ensures var calls := Invoke(cfg, svc, event).calls;
            (|calls| > 3 ==> calls[3].format == EncodeFormat(calls[2].image.format)) &&
            (|calls| > 4 ==> calls[4].contentType == ContentType(EncodeFormat(calls[2].image.format)))
  {
    DataFlowsThroughPipeline(cfg, svc, event);
  }

  /**
   * The key and the content type are chosen independently: a `.png`-named object whose
   * format the library cannot tell is stored as JPEG under a `_thumb.png` key.
   */
  lemma UndetectedFormatKeepsKeyExtension(cfg: Config, svc: Services, event: Event)
    requires "key" in event && event["key"] == "folder/example.png"
    requires Invoke(cfg, svc, event).response.Success?
    requires Invoke(cfg, svc, event).calls[3].image.format == None
    ensures var put := Invoke(cfg, svc, event).calls[4];
            put.key == "thumbnails/example_thumb.png" && put.contentType == "image/jpeg"
  {
    SuccessfulInvocation(cfg, svc, event);
    DataFlowsThroughPipeline(cfg, svc, event);
    OutputKeyExamples(event["key"]);
    ContentTypeExamples();
  }

  /** The handler with its reused client and its settings; `calls` logs every collaborator call made through it. */
  class Handler {
    const config: Config
    const services: Services
    var calls: seq<Call>

    constructor(config: Config, services: Services)
      ensures this.config == config && this.services == services
      ensures calls == []
    {
      this.config := config;
      this.services := services;
      calls := [];
    }

    /** `s3_client.get_object(...)` and reading its body. */
    method Fetch(bucket: string, key: string) returns (r: Result<Bytes>)
      modifies this
      ensures calls == old(calls) + [GetObject(bucket, key)]
      ensures r == services.getObject(bucket, key)
    {
      calls := calls + [GetObject(bucket, key)];
      r := services.getObject(bucket, key);
    }

    /** `Image.open` on the fetched bytes. */
    method Decode(data: Bytes) returns (r: Result<Image>)
      modifies this
      ensures calls == old(calls) + [Open(data)]
      ensures r == services.open(data)
    {
      calls := calls + [Open(data)];
      r := services.open(data);
    }

    /** `img.thumbnail((THUMB_WIDTH, THUMB_HEIGHT))`. */
    method Shrink(img: Image) returns (r: Result<Image>)
      modifies this
      ensures calls == old(calls) + [Thumbnail(img, config.thumbWidth, config.thumbHeight)]
      ensures r == services.thumbnail(img, config.thumbWidth, config.thumbHeight)
    {
      calls := calls + [Thumbnail(img, config.thumbWidth, config.thumbHeight)];
      r := services.thumbnail(img, config.thumbWidth, config.thumbHeight);
    }

    /** `img.save(buffer, format=...)` into an in-memory buffer. */
    method Encode(img: Image, format: string) returns (r: Result<Bytes>)
      modifies this
      ensures calls == old(calls) + [Save(img, format)]
      ensures r == services.save(img, format)
    {
      calls := calls + [Save(img, format)];
      r := services.save(img, format);
    }

    /** `s3_client.put_object(...)`. */
    method Store(bucket: string, key: string, body: Bytes, contentType: string) returns (r: Result<()>)
      modifies this
      ensures calls == old(calls) + [PutObject(bucket, key, body, contentType)]
      ensures r == services.putObject(bucket, key, body, contentType)
    {
      calls := calls + [PutObject(bucket, key, body, contentType)];
      r := services.putObject(bucket, key, body, contentType);
    }

    /** `lambda_handler`: one invocation, appending its calls to the log. */
    method Handle(event: Event) returns (response: Response)
      modifies this
      ensures response == Invoke(config, services, event).response
      ensures calls == old(calls) + Invoke(config, services, event).calls
    {
      if "bucket" !in event {
        return Error(KeyErrorText("bucket"));
      }
      var srcBucket := event["bucket"];
      if "key" !in event {
        return Error(KeyErrorText("key"));
      }
      var srcKey := event["key"];

      ghost var before := calls;
      var fetched := Fetch(srcBucket, srcKey);
      ghost var trace := [GetObject(srcBucket, srcKey)];
      if fetched.Err? {
        return Error(fetched.message);
      }
      var decoded := Decode(fetched.value);
      trace := trace + [Open(fetched.value)];
      assert calls == before + trace;
      if decoded.Err? {
        return Error(decoded.message);
      }
      var shrunk := Shrink(decoded.value);
      trace := trace + [Thumbnail(decoded.value, config.thumbWidth, config.thumbHeight)];
      assert calls == before + trace;
      if shrunk.Err? {
        return Error(shrunk.message);
      }
      var format := EncodeFormat(shrunk.value.format);
      var encoded := Encode(shrunk.value, format);
      trace := trace + [Save(shrunk.value, format)];
      assert calls == before + trace;
      if encoded.Err? {
        return Error(encoded.message);
      }

      var outputKey := OutputKey(srcKey);
      var stored := Store(config.outputBucket, outputKey, encoded.value, ContentType(format));
      trace := trace + [PutObject(config.outputBucket, outputKey, encoded.value, ContentType(format))];
      assert calls == before + trace;
      if stored.Err? {
        return Error(stored.message);
      }
      return Success(outputKey);
    }
  }
}
