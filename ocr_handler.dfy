/**
 * The two text-detection Lambdas share one handler and differ only in the
 * recognition engine (Amazon Textract rendered as markdown, or tesseract) and
 * in the extension of the text file they write. Each SQS record carries an SNS
 * envelope whose message names a page image (`object_key`, `bucket_name`); the
 * text recognised in it is written next to the image, in the same bucket, as
 * `{dirname(key)}/{splitext(basename(key))[0]}{extension}`, and only then is the
 * record's message deleted from the queue.
 */
module OcrHandler {
  import opened Wrappers
  import opened Json
  import opened Aws
  import opened RecordLoop
  import opened PosixPath
  import opened Strings
  import opened RenderPages

  /** `payload['object_key']` and `payload['bucket_name']`, None when absent. */
  datatype Payload = Payload(objectKey: Option<string>, bucketName: Option<string>)

  type OcrRecord = SqsRecord<Payload>

  /** Image to text: opening the image and running the engine on it; None when either raises. */
  type Recogniser = Blob -> Option<string>

  /** The input queue (`INPUT_QUEUE`), the extension of the text file and the engine's name. */
  datatype Settings = Settings(queue: string, extension: string, engine: string)

  /** `f"{dirname(object_key)}/{splitext(basename(object_key))[0]}{extension}"`. */
  function OutputKey(key: string, extension: string): string
  {
    Dirname(key) + "/" + Stem(Basename(key)) + extension
  }

  /**
   * Under a directory that does not end in a slash, the text file lands in the same
   * directory, named after the image without its extension.
   */
  lemma OutputKeySameDirectory(key: string, extension: string)
    requires Dirname(key) != [] && Dirname(key)[|Dirname(key)| - 1] != '/'
    requires '/' !in extension
    ensures Dirname(OutputKey(key, extension)) == Dirname(key)
    ensures Basename(OutputKey(key, extension)) == Stem(Basename(key)) + extension
  {
    var stem := Stem(Basename(key));
    StemHasNoSlash(Basename(key));
    NoSlashInConcat(stem, extension);
    assert OutputKey(key, extension) == Dirname(key) + "/" + (stem + extension);
    DirnameBasename(Dirname(key), stem + extension);
  }

  /** A key with no directory part gets a leading slash: `dirname` is empty and the f-string still inserts `/`. */
  lemma OutputKeyOfTopLevel(key: string, extension: string)
    requires '/' !in key
    ensures OutputKey(key, extension) == "/" + Stem(key) + extension
  {
    DirnameOfPlain(key);
    assert OutputKey(key, extension) == [] + "/" + Stem(key) + extension;
    assert [] + "/" == "/";
  }

  /** The digits of a page number hold no slash and do not start with a dot. */
  lemma PageNumberDigits(n: nat)
    ensures '/' !in NatToString(n) && NatToString(n)[0] != '.'
  {
    var digits := NatToString(n);
    forall k | 0 <= k < |digits| ensures digits[k] != '/' {
      assert '0' <= digits[k] <= '9';
    }
  }

  /** A page key is the page directory, a slash, and the page's file name. */
  lemma PageKeyInDirectory(owner: string, uploadId: string, n: nat)
    ensures PageKey(owner, uploadId, n) == (owner + "/" + uploadId + "/pages") + "/" + (NatToString(n) + ".webp")
    ensures (owner + "/" + uploadId + "/pages") + "/" == owner + "/" + uploadId + "/pages/"
  {
  }

  /** The text of page `n` of an upload lands beside the page image, with the extension swapped. */
  lemma OutputKeyOfPage(owner: string, uploadId: string, n: nat, extension: string)
    ensures OutputKey(PageKey(owner, uploadId, n), extension) == owner + "/" + uploadId + "/pages/" + NatToString(n) + extension
  {
    var dir := owner + "/" + uploadId + "/pages";
    var digits := NatToString(n);
    PageKeyInDirectory(owner, uploadId, n);
    PageNumberDigits(n);
    NoSlashInConcat(digits, ".webp");
    assert dir[|dir| - 1] == 's';
    DirnameBasename(dir, digits + ".webp");
    StemOfExtension(digits, ".webp");
    assert OutputKey(PageKey(owner, uploadId, n), extension) == dir + "/" + digits + extension;
  }

  /** The text file never replaces the page image it was read from. */
  lemma OutputKeyIsNotPageKey(owner: string, uploadId: string, n: nat, extension: string)
    requires extension != ".webp"
    ensures OutputKey(PageKey(owner, uploadId, n), extension) != PageKey(owner, uploadId, n)
  {
    OutputKeyOfPage(owner, uploadId, n, extension);
    var prefix := owner + "/" + uploadId + "/pages/" + NatToString(n);
    assert PageKey(owner, uploadId, n) == prefix + ".webp";
    assert (prefix + extension)[|prefix|..] == extension;
    assert (prefix + ".webp")[|prefix|..] == ".webp";
  }

  /** `extract_text_from_s3_image`: fetch the image and recognise its text. */
  function ExtractText(w: World, settings: Settings, ocr: Recogniser, bucket: string, key: string): Result<string, Failure>
  {
    match GetObject(w, bucket, key)
    case Err(e) => Err(e)
    case Ok(blob) =>
      match ocr(blob)
      case None => Err(Foreign(settings.engine))
      case Some(text) => Ok(text)
  }

  /** The work of one record's try block between parsing the message and deleting it. */
  function HandledPayload(w: World, settings: Settings, ocr: Recogniser, payload: Payload): (World, Option<Failure>)
  {
    if payload.objectKey.None? then (w, Some(KeyError("object_key")))
    else if payload.bucketName.None? then (w, Some(KeyError("bucket_name")))
    else
      var key, bucket := payload.objectKey.value, payload.bucketName.value;
      match ExtractText(w, settings, ocr, bucket, key)
      case Err(e) => (w, Some(e))
      case Ok(text) =>
        match PutObject(w, bucket, OutputKey(key, settings.extension), TextBody(text))
        case Err(e) => (w, Some(e))
        case Ok(saved) => (saved, None)
  }

  /**
   * A payload is handled exactly when it names an image that exists, is recognised, and
   * sits in a writable bucket; the only change is then the text file beside it, and a
   * failure changes nothing.
   */
  lemma HandledPayloadOutcome(w: World, settings: Settings, ocr: Recogniser, payload: Payload)
    ensures var (w', failure) := HandledPayload(w, settings, ocr, payload);
      && (failure.None? <==>
            && payload.objectKey.Some? && payload.bucketName.Some?
            && ExtractText(w, settings, ocr, payload.bucketName.value, payload.objectKey.value).Ok?
            && payload.bucketName.value !in w.readOnly)
      && (failure.Some? ==> w' == w)
      && (failure.None? ==>
            var bucket, key := payload.bucketName.value, payload.objectKey.value;
            var text := ExtractText(w, settings, ocr, bucket, key).value;
            && GetObject(w, bucket, key).Ok?
            && ocr(GetObject(w, bucket, key).value) == Some(text)
            && w'.objects == w.objects[(bucket, OutputKey(key, settings.extension)) := TextBody(text)]
            && w'.log == w.log + [Put(bucket, OutputKey(key, settings.extension), TextBody(text))])
  {
  }

  /** One record inside its try block: body, Message, the two payload keys, recognise, save, then delete. */
  function RecordStep(w: World, settings: Settings, ocr: Recogniser, rec: OcrRecord): StepResult
  {
    match rec.body
    case Unreadable => StepResult(w, None)
    case Wrapped(payload) =>
      if payload.None? then StepResult(w, None)
      else
        var (w', failure) := HandledPayload(w, settings, ocr, payload.value);
        if failure.Some? || rec.receiptHandle.None? then StepResult(w', None)
        else StepResult(DeleteMessage(w', settings.queue, rec.receiptHandle.value), rec.receiptHandle)
  }

  function StepFn(settings: Settings, ocr: Recogniser): (World, OcrRecord) -> StepResult
  {
    (w: World, rec: OcrRecord) => RecordStep(w, settings, ocr, rec)
  }

  /**
   * An acknowledged record did exactly two things: it saved the recognised text next
   * to the image, and then deleted its message.
   */
  lemma AckedAfterSave(w: World, settings: Settings, ocr: Recogniser, rec: OcrRecord)
    requires RecordStep(w, settings, ocr, rec).acked.Some?
    ensures rec.body.Wrapped? && rec.body.message.Some?
    ensures var s := RecordStep(w, settings, ocr, rec);
      var p := rec.body.message.value;
      && p.objectKey.Some? && p.bucketName.Some?
      && ExtractText(w, settings, ocr, p.bucketName.value, p.objectKey.value).Ok?
      && s.world.log == w.log + [
           Put(p.bucketName.value, OutputKey(p.objectKey.value, settings.extension),
               TextBody(ExtractText(w, settings, ocr, p.bucketName.value, p.objectKey.value).value)),
           Delete(settings.queue, s.acked.value)]
  {
    var p := rec.body.message.value;
    HandledPayloadOutcome(w, settings, ocr, p);
    var saved := HandledPayload(w, settings, ocr, p).0;
    var put := Put(p.bucketName.value, OutputKey(p.objectKey.value, settings.extension),
                   TextBody(ExtractText(w, settings, ocr, p.bucketName.value, p.objectKey.value).value));
    var delete := Delete(settings.queue, rec.receiptHandle.value);
    assert saved.log == w.log + [put];
    assert RecordStep(w, settings, ocr, rec).world == DeleteMessage(saved, settings.queue, rec.receiptHandle.value);
    assert w.log + [put] + [delete] == w.log + [put, delete];
  }

  lemma RecordStepDisciplined(w: World, settings: Settings, ocr: Recogniser, rec: OcrRecord)
    ensures Disciplined(w, RecordStep(w, settings, ocr, rec), settings.queue)
  {
    if rec.body.Wrapped? && rec.body.message.Some? {
      var (w', failure) := HandledPayload(w, settings, ocr, rec.body.message.value);
      HandledPayloadOutcome(w, settings, ocr, rec.body.message.value);
      if failure.None? {
        var p := rec.body.message.value;
        var text := ExtractText(w, settings, ocr, p.bucketName.value, p.objectKey.value).value;
        OneEffectNoDelete(w, w', Put(p.bucketName.value, OutputKey(p.objectKey.value, settings.extension), TextBody(text)));
      } else {
        NothingAppended(w);
      }
      DeleteLastIsDisciplined(w, w', settings.queue, if failure.None? then rec.receiptHandle else None);
    } else {
      NothingAppended(w);
      DeleteLastIsDisciplined(w, w, settings.queue, None);
    }
  }

  /**
   * `lambda_handler`. The except clause logs `body`, which only a parsed record body
   * binds: when the very first record's body does not parse, that log line raises out
   * of the handler; later failures find `body` bound from an earlier record.
   */
  function Handler(w: World, settings: Settings, ocr: Recogniser, records: seq<OcrRecord>): (World, Response)
  {
    if records != [] && records[0].body.Unreadable? then (w, Raises(UnboundLocal("body")))
    else (Run(w, records, StepFn(settings, ocr)).0, Ok200)
  }

  /**
   * The handler raises exactly when the first record's body does not parse, and then has
   * done nothing. Otherwise it returns 200 and the messages it deleted are exactly those
   * of the records whose text was saved, in record order.
   */
  lemma HandlerOutcome(w: World, settings: Settings, ocr: Recogniser, records: seq<OcrRecord>)
    ensures var (w', response) := Handler(w, settings, ocr, records);
      && (response.Raises? <==> records != [] && records[0].body.Unreadable?)
      && (response.Raises? ==> w' == w && response.failure == UnboundLocal("body"))
      && (!response.Raises? ==> response == Ok200)
    ensures var (w', response) := Handler(w, settings, ocr, records);
      var run := Run(w, records, StepFn(settings, ocr));
      !response.Raises? ==> |w.log| <= |w'.log| && w'.log[..|w.log|] == w.log && Deleted(Appended(w, w')) == run.1
  {
    forall v: World, rec: OcrRecord ensures Disciplined(v, StepFn(settings, ocr)(v, rec), settings.queue) {
      RecordStepDisciplined(v, settings, ocr, rec);
    }
    RunDeletesExactlyAcked(w, records, StepFn(settings, ocr), settings.queue);
  }

  // ---------------------------------------------------------------------------
  // The handler as the source runs it
  // ---------------------------------------------------------------------------

  /** `extract_text_from_s3_image`. */
  method ExtractTextFromS3Image(cloud: Cloud, settings: Settings, ocr: Recogniser, bucket: string, key: string)
    returns (r: Result<string, Failure>)
    ensures r == ExtractText(cloud.State(), settings, ocr, bucket, key)
  {
    var image := cloud.Get(bucket, key);
    if image.Err? {
      return Err(image.error);
    }
    var text := ocr(image.value);
    if text.None? {
      return Err(Foreign(settings.engine));
    }
    r := Ok(text.value);
  }

  /** The try block up to the delete. */
  method HandlePayload(cloud: Cloud, settings: Settings, ocr: Recogniser, payload: Payload) returns (failure: Option<Failure>)
    modifies cloud
    ensures (cloud.State(), failure) == HandledPayload(old(cloud.State()), settings, ocr, payload)
  {
    if payload.objectKey.None? {
      return Some(KeyError("object_key"));
    }
    if payload.bucketName.None? {
      return Some(KeyError("bucket_name"));
    }
    var objectKey, bucketName := payload.objectKey.value, payload.bucketName.value;
    var imageText := ExtractTextFromS3Image(cloud, settings, ocr, bucketName, objectKey);
    if imageText.Err? {
      return Some(imageText.error);
    }
    var outputKey := OutputKey(objectKey, settings.extension);
    failure := cloud.Put(bucketName, outputKey, TextBody(imageText.value));
  }

  /** `lambda_handler`. */
  method LambdaHandler(cloud: Cloud, settings: Settings, ocr: Recogniser, records: seq<OcrRecord>)
    returns (response: Response)
    modifies cloud
    ensures (cloud.State(), response) == Handler(old(cloud.State()), settings, ocr, records)
  {
    ghost var w := cloud.State();
    var bodyBound := false;
    var i := 0;
    while i < |records|
      invariant 0 <= i <= |records|
      invariant cloud.State() == Run(w, records[..i], StepFn(settings, ocr)).0
      invariant bodyBound <==> i > 0 && !records[0].body.Unreadable?
      invariant i > 0 ==> bodyBound
    {
      var rec := records[i];
      assert records[..i + 1][..i] == records[..i];
      if rec.body.Unreadable? {
        if !bodyBound {
          return Raises(UnboundLocal("body"));
        }
      } else {
        bodyBound := true;
        if rec.body.message.Some? {
          var failure := HandlePayload(cloud, settings, ocr, rec.body.message.value);
          if failure.None? && rec.receiptHandle.Some? {
            cloud.Delete(settings.queue, rec.receiptHandle.value);
          }
        }
      }
      i := i + 1;
    }
    assert records[..i] == records;
    response := Ok200;
  }
}
