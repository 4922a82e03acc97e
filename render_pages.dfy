/**
 * The Lambda that rasterises an uploaded PDF. The upload's key must read
 * `{owner}/{upload_id}/{file_name}`; the PDF is read from the configured bucket
 * (at the notified version when there is one), each page is written back as
 * `{owner}/{upload_id}/pages/{n}.webp` with `n` counting from 1, and only after
 * that write a page-rendered message naming it is published to SNS.
 */
module RenderPages {
  import opened Wrappers
  import opened Json
  import opened Aws
  import opened RecordLoop
  import opened Strings

  /** `BUCKET_NAME`, `EXTRACT_PAGES_QUEUE_URL` and `PAGE_RENDERED_TOPIC_ARN`. */
  datatype Config = Config(bucket: string, queue: string, topic: string)

  /** One S3 record of the upload notification: `['s3']['object']['key']`, `['s3']['bucket']['name']`, `['s3']['object'].get('versionId')`. */
  datatype PdfRecord = PdfRecord(key: Option<string>, bucket: Option<string>, versionId: Option<string>)

  /** An SQS record whose body is the S3 event itself; the message is the event's `Records`, None when absent. */
  type RenderRecord = SqsRecord<seq<PdfRecord>>

  /** pdf2image's `convert_from_bytes`: the pages of a PDF, or None when it raises. */
  type Rasteriser = Blob -> Option<seq<PageImage>>

  /** `urllib.parse.unquote_plus`. */
  type Unquote = string -> string

  /** The three names `object_key.split('/')` unpacks into. */
  datatype Upload = Upload(owner: string, uploadId: string, fileName: string)

  /** `owner, upload_id, file_name = object_key.split('/')`: a ValueError unless there are exactly three pieces. */
  function ParseKey(key: string): Result<Upload, Failure>
  {
    var pieces := Split(key, '/');
    if |pieces| != 3 then Err(ValueError) else Ok(Upload(pieces[0], pieces[1], pieces[2]))
  }

  function UploadKey(u: Upload): string
  {
    u.owner + "/" + u.uploadId + "/" + u.fileName
  }

  /**
   * A key unpacks exactly when it holds two slashes; the three names then hold no
   * slash and put back together give the key. Conversely every such triple is parsed back.
   */
  lemma ParseKeyRoundTrip(key: string, u: Upload)
    ensures ParseKey(key).Ok? <==> Count(key, '/') == 2
    ensures ParseKey(key).Ok? ==>
      var v := ParseKey(key).value;
      UploadKey(v) == key && '/' !in v.owner && '/' !in v.uploadId && '/' !in v.fileName
    ensures '/' !in u.owner && '/' !in u.uploadId && '/' !in u.fileName ==> ParseKey(UploadKey(u)) == Ok(u)
  {
    ThreePieces(key, '/');
    SplitJoin(key, '/');
    SplitPiecesHaveNoSeparator(key, '/');
    var pieces := Split(key, '/');
    if |pieces| == 3 {
      assert Join(pieces, '/') == pieces[0] + "/" + pieces[1] + "/" + pieces[2] by {
        assert pieces[..2][..1] == [pieces[0]];
        assert pieces[..2] == [pieces[0], pieces[1]];
        assert Join(pieces[..2], '/') == pieces[0] + "/" + pieces[1];
      }
    }
    if '/' !in u.owner && '/' !in u.uploadId && '/' !in u.fileName {
      var ps := [u.owner, u.uploadId, u.fileName];
      assert Join(ps, '/') == UploadKey(u) by {
        assert ps[..2][..1] == [u.owner];
        assert ps[..2] == [u.owner, u.uploadId];
        assert Join(ps[..2], '/') == u.owner + "/" + u.uploadId;
      }
      JoinSplit(ps, '/');
    }
  }

  /** `f"{owner}/{upload_id}/pages/{str(n)}.webp"`. */
  function PageKey(owner: string, uploadId: string, n: nat): string
  {
    owner + "/" + uploadId + "/pages/" + NatToString(n) + ".webp"
  }

  /** Pages of one upload have pairwise different keys. */
  lemma PageKeysDistinct(owner: string, uploadId: string, a: nat, b: nat)
    ensures PageKey(owner, uploadId, a) == PageKey(owner, uploadId, b) <==> a == b
  {
    if PageKey(owner, uploadId, a) == PageKey(owner, uploadId, b) {
      var prefix := owner + "/" + uploadId + "/pages/";
      var ka, kb := PageKey(owner, uploadId, a), PageKey(owner, uploadId, b);
      assert ka == prefix + (NatToString(a) + ".webp");
      assert kb == prefix + (NatToString(b) + ".webp");
      assert |NatToString(a)| == |NatToString(b)|;
      assert NatToString(a) == ka[|prefix|..|prefix| + |NatToString(a)|];
      assert NatToString(b) == kb[|prefix|..|prefix| + |NatToString(b)|];
      NatToStringInjective(a, b);
    }
  }

  /** A page key splits into four pieces: owner, upload id, `pages`, and `{n}.webp`. */
  lemma PageKeyPieces(owner: string, uploadId: string, n: nat)
    requires '/' !in owner && '/' !in uploadId
    ensures Split(PageKey(owner, uploadId, n), '/') == [owner, uploadId, "pages", NatToString(n) + ".webp"]
  {
    var file := NatToString(n) + ".webp";
    var ps := [owner, uploadId, "pages", file];
    assert '/' !in file by {
      forall k | 0 <= k < |file| ensures file[k] != '/' {
        if k < |NatToString(n)| {
          assert file[k] == NatToString(n)[k];
        }
      }
    }
    assert Join(ps, '/') == PageKey(owner, uploadId, n) by {
      assert ps[..3][..2][..1] == [owner];
      assert ps[..3][..2] == [owner, uploadId];
      assert ps[..3] == [owner, uploadId, "pages"];
      assert Join(ps[..3][..2], '/') == owner + "/" + uploadId;
      assert Join(ps[..3], '/') == owner + "/" + uploadId + "/" + "pages";
    }
    JoinSplit(ps, '/');
  }

  /** Rendering never overwrites the uploaded PDF: a page key never unpacks as an upload key. */
  lemma PageKeyIsNotUploadKey(key: string, n: nat)
    requires ParseKey(key).Ok?
    ensures var u := ParseKey(key).value; PageKey(u.owner, u.uploadId, n) != key
  {
    var u := ParseKey(key).value;
    ParseKeyRoundTrip(key, u);
    PageKeyPieces(u.owner, u.uploadId, n);
  }

  /** The keyword arguments of `get_object` in `load_pdf_as_images`. */
  datatype GetRequest = GetRequest(bucket: string, key: string, versionId: Option<string>)

  /** `params`: the configured bucket and the key, and `VersionId` only when the version is truthy. */
  function LoadParams(cfg: Config, key: string, version: Option<string>): (r: GetRequest)
    ensures r.bucket == cfg.bucket && r.key == key
    ensures r.versionId.Some? <==> version.Some? && version.value != ""
    ensures r.versionId.Some? ==> r.versionId == version
  {
    GetRequest(cfg.bucket, key, if version.Some? && version.value != "" then version else None)
  }

  /** `load_pdf_as_images`: fetch the PDF as `params` asks and rasterise it. */
  function LoadPages(w: World, cfg: Config, raster: Rasteriser, key: string, version: Option<string>): Result<seq<PageImage>, Failure>
  {
    var req := LoadParams(cfg, key, version);
    match GetObject(w, req.bucket, req.key)
    case Err(e) => Err(e)
    case Ok(blob) =>
      match raster(blob)
      case None => Err(Foreign("pdf2image"))
      case Some(pages) => Ok(pages)
  }

  /** `json.dumps` of `version_id`: the string, or `null` for None. */
  function VersionJson(version: Option<string>): Json
  {
    if version.Some? then JStr(version.value) else JNull
  }

  /** `sns_message` for page `n`. */
  function PageMessage(cfg: Config, u: Upload, version: Option<string>, n: nat): (r: Json)
    ensures r.JObj? && |r.fields| == 7
  {
    JObj([
      ("object_key", JStr(PageKey(u.owner, u.uploadId, n))),
      ("bucket_name", JStr(cfg.bucket)),
      ("version_id", VersionJson(version)),
      ("page", JInt(n)),
      ("owner_id", JStr(u.owner)),
      ("upload_id", JStr(u.uploadId)),
      ("file_name", JStr(u.fileName))
    ])
  }

  /**
   * The page-rendered message names the page's key and the configured bucket it was
   * written to, and carries the page number and the upload's names.
   */
  lemma PageMessageFields(cfg: Config, u: Upload, version: Option<string>, n: nat)
    ensures var f := PageMessage(cfg, u, version, n).fields;
      && Lookup(f, "object_key") == Some(JStr(PageKey(u.owner, u.uploadId, n)))
      && Lookup(f, "bucket_name") == Some(JStr(cfg.bucket))
      && Lookup(f, "version_id") == Some(VersionJson(version))
      && Lookup(f, "page") == Some(JInt(n))
  {
    var f := PageMessage(cfg, u, version, n).fields;
    assert f[0].0 == "object_key" && f[1].0 == "bucket_name";
    assert Lookup(f, "object_key") == Some(JStr(PageKey(u.owner, u.uploadId, n))) by {
      LookupAt(f, 0, "object_key");
    }
    assert Lookup(f, "bucket_name") == Some(JStr(cfg.bucket)) by {
      LookupAt(f, 1, "bucket_name");
    }
    PageMessageVersion(cfg, u, version, n);
    PageMessagePage(cfg, u, version, n);
  }

  lemma PageMessageVersion(cfg: Config, u: Upload, version: Option<string>, n: nat)
    ensures Lookup(PageMessage(cfg, u, version, n).fields, "version_id") == Some(VersionJson(version))
  {
    var f := PageMessage(cfg, u, version, n).fields;
    assert f[0].0 == "object_key" && f[1].0 == "bucket_name" && f[2].0 == "version_id";
    LookupAt(f, 2, "version_id");
  }

  lemma PageMessagePage(cfg: Config, u: Upload, version: Option<string>, n: nat)
    ensures Lookup(PageMessage(cfg, u, version, n).fields, "page") == Some(JInt(n))
  {
    var f := PageMessage(cfg, u, version, n).fields;
    assert f[0].0 == "object_key" && f[1].0 == "bucket_name" && f[2].0 == "version_id" && f[3].0 == "page";
    LookupAt(f, 3, "page");
  }

  /** The message also carries the three names the object key was split into. */
  lemma PageMessageUpload(cfg: Config, u: Upload, version: Option<string>, n: nat)
    ensures var f := PageMessage(cfg, u, version, n).fields;
      && Lookup(f, "owner_id") == Some(JStr(u.owner))
      && Lookup(f, "upload_id") == Some(JStr(u.uploadId))
      && Lookup(f, "file_name") == Some(JStr(u.fileName))
  {
    PageMessageOwner(cfg, u, version, n);
    PageMessageUploadId(cfg, u, version, n);
    PageMessageFileName(cfg, u, version, n);
  }

  lemma PageMessageOwner(cfg: Config, u: Upload, version: Option<string>, n: nat)
    ensures Lookup(PageMessage(cfg, u, version, n).fields, "owner_id") == Some(JStr(u.owner))
  {
    var f := PageMessage(cfg, u, version, n).fields;
    assert f[0].0 == "object_key" && f[1].0 == "bucket_name" && f[2].0 == "version_id" && f[3].0 == "page";
    LookupAt(f, 4, "owner_id");
  }

  lemma PageMessageUploadId(cfg: Config, u: Upload, version: Option<string>, n: nat)
    ensures Lookup(PageMessage(cfg, u, version, n).fields, "upload_id") == Some(JStr(u.uploadId))
  {
    var f := PageMessage(cfg, u, version, n).fields;
    assert f[0].0 == "object_key" && f[1].0 == "bucket_name" && f[2].0 == "version_id";
    assert f[3].0 == "page" && f[4].0 == "owner_id";
    LookupAt(f, 5, "upload_id");
  }

  lemma PageMessageFileName(cfg: Config, u: Upload, version: Option<string>, n: nat)
    ensures Lookup(PageMessage(cfg, u, version, n).fields, "file_name") == Some(JStr(u.fileName))
  {
    var f := PageMessage(cfg, u, version, n).fields;
    assert f[0].0 == "object_key" && f[1].0 == "bucket_name" && f[2].0 == "version_id";
    assert f[3].0 == "page" && f[4].0 == "owner_id" && f[5].0 == "upload_id";
    LookupAt(f, 6, "file_name");
  }

  /** The body of the page loop for page `n`: save, then publish. */
  function RenderPage(w: World, cfg: Config, u: Upload, version: Option<string>, n: nat, image: PageImage): (World, Option<Failure>)
  {
    match PutObject(w, cfg.bucket, PageKey(u.owner, u.uploadId, n), WebpBody(image))
    case Err(e) => (w, Some(e))
    case Ok(saved) => (PublishMessage(saved, cfg.topic, PageMessage(cfg, u, version, n)), None)
  }

  /** `for page_index, image in enumerate(...)`; the first exception ends it. */
  function RenderAll(w: World, cfg: Config, u: Upload, version: Option<string>, pages: seq<PageImage>): (World, Option<Failure>)
  {
    if pages == [] then (w, None)
    else
      var (prev, f) := RenderAll(w, cfg, u, version, pages[..|pages| - 1]);
      if f.Some? then (prev, f) else RenderPage(prev, cfg, u, version, |pages|, pages[|pages| - 1])
  }

  /** `process_pdf`. */
  function ProcessPdf(w: World, cfg: Config, unquote: Unquote, raster: Rasteriser, rec: PdfRecord): (World, Option<Failure>)
  {
    if rec.key.None? then (w, Some(KeyError("key")))
    else
      var key := unquote(rec.key.value);
      match ParseKey(key)
      case Err(e) => (w, Some(e))
      case Ok(u) =>
        if rec.bucket.None? then (w, Some(KeyError("name")))
        else
          match LoadPages(w, cfg, raster, key, rec.versionId)
          case Err(e) => (w, Some(e))
          case Ok(pages) => RenderAll(w, cfg, u, rec.versionId, pages)
  }

  /** `for s3_record in s3_event['Records']: process_pdf(s3_record)`; the first exception ends it. */
  function ProcessAll(w: World, cfg: Config, unquote: Unquote, raster: Rasteriser, recs: seq<PdfRecord>): (World, Option<Failure>)
  {
    if recs == [] then (w, None)
    else
      var (prev, f) := ProcessAll(w, cfg, unquote, raster, recs[..|recs| - 1]);
      if f.Some? then (prev, f) else ProcessPdf(prev, cfg, unquote, raster, recs[|recs| - 1])
  }

  /** One record inside its try block: parse, process every PDF, then read `receiptHandle` and delete. */
  function RecordStep(w: World, cfg: Config, unquote: Unquote, raster: Rasteriser, rec: RenderRecord): StepResult
  {
    match rec.body
    case Unreadable => StepResult(w, None)
    case Wrapped(recs) =>
      if recs.None? then StepResult(w, None)
      else
        var (w', failure) := ProcessAll(w, cfg, unquote, raster, recs.value);
        if failure.Some? || rec.receiptHandle.None? then StepResult(w', None)
        else StepResult(DeleteMessage(w', cfg.queue, rec.receiptHandle.value), rec.receiptHandle)
  }

  function StepFn(cfg: Config, unquote: Unquote, raster: Rasteriser): (World, RenderRecord) -> StepResult
  {
    (w: World, rec: RenderRecord) => RecordStep(w, cfg, unquote, raster, rec)
  }

  /**
   * `lambda_handler`. The except clause logs `s3_event`, which only a parsed body binds:
   * when the very first record's body does not parse, that log line raises out of the
   * handler. Any later record's failure finds `s3_event` still bound from an earlier one.
   */
  function Handler(w: World, cfg: Config, unquote: Unquote, raster: Rasteriser, records: seq<RenderRecord>): (World, Response)
  {
    if records != [] && records[0].body.Unreadable? then (w, Raises(UnboundLocal("s3_event")))
    else (Run(w, records, StepFn(cfg, unquote, raster)).0, Ok200)
  }

  // ---------------------------------------------------------------------------
  // Properties
  // ---------------------------------------------------------------------------

  /** Page by page, in order: the save of page `i + 1`, then the message announcing it. */
  ghost predicate SavedThenPublished(sent: seq<Effect>, cfg: Config, u: Upload, version: Option<string>, pages: seq<PageImage>)
  {
    && |sent| == 2 * |pages|
    && forall i :: 0 <= i < |pages| ==>
         && sent[2 * i] == Put(cfg.bucket, PageKey(u.owner, u.uploadId, i + 1), WebpBody(pages[i]))
         && sent[2 * i + 1] == Publish(cfg.topic, PageMessage(cfg, u, version, i + 1))
  }

  /**
   * With a writable bucket the page loop completes, and its effects are exactly, for
   * each page in order, the save of that page under its 1-based key followed by the
   * message that announces it: no page is announced before it is stored.
   */
  lemma {:induction false} SavesBeforePublishing(w: World, cfg: Config, u: Upload, version: Option<string>, pages: seq<PageImage>)
    requires cfg.bucket !in w.readOnly
    ensures RenderAll(w, cfg, u, version, pages).1.None?
    ensures var w' := RenderAll(w, cfg, u, version, pages).0;
      && w'.readOnly == w.readOnly
      && |w.log| <= |w'.log| && w'.log[..|w.log|] == w.log
      && SavedThenPublished(w'.log[|w.log|..], cfg, u, version, pages)
  {
    if pages != [] {
      var init, n := pages[..|pages| - 1], |pages|;
      SavesBeforePublishing(w, cfg, u, version, init);
      var prev := RenderAll(w, cfg, u, version, init).0;
      RenderPageWritable(prev, cfg, u, version, n, pages[n - 1]);
      assert RenderAll(w, cfg, u, version, pages).0.log[|w.log|..] == prev.log[|w.log|..] + (RenderAll(w, cfg, u, version, pages).0.log[|prev.log|..]);
      assert pages == init + [pages[n - 1]];
      SavedThenPublishedSnoc(prev.log[|w.log|..], cfg, u, version, init, pages[n - 1]);
    }
  }

  /** Into a writable bucket, one page is saved and then announced, and nothing else happens. */
  lemma RenderPageWritable(w: World, cfg: Config, u: Upload, version: Option<string>, n: nat, image: PageImage)
    requires cfg.bucket !in w.readOnly
    ensures var (w', failure) := RenderPage(w, cfg, u, version, n, image);
      && failure.None? && w'.readOnly == w.readOnly
      && w'.log == w.log + [Put(cfg.bucket, PageKey(u.owner, u.uploadId, n), WebpBody(image)), Publish(cfg.topic, PageMessage(cfg, u, version, n))]
  {
  }

  /** Saving and announcing one more page extends the effects of the pages before it. */
  lemma SavedThenPublishedSnoc(sent: seq<Effect>, cfg: Config, u: Upload, version: Option<string>, pages: seq<PageImage>, page: PageImage)
    requires SavedThenPublished(sent, cfg, u, version, pages)
    ensures var n := |pages| + 1;
      SavedThenPublished(
        sent + [Put(cfg.bucket, PageKey(u.owner, u.uploadId, n), WebpBody(page)), Publish(cfg.topic, PageMessage(cfg, u, version, n))],
        cfg, u, version, pages + [page])
  {
    var n := |pages| + 1;
    var all := pages + [page];
    var more := sent + [Put(cfg.bucket, PageKey(u.owner, u.uploadId, n), WebpBody(page)), Publish(cfg.topic, PageMessage(cfg, u, version, n))];
    forall i | 0 <= i < |all|
      ensures more[2 * i] == Put(cfg.bucket, PageKey(u.owner, u.uploadId, i + 1), WebpBody(all[i]))
      ensures more[2 * i + 1] == Publish(cfg.topic, PageMessage(cfg, u, version, i + 1))
    {
      if i < |pages| {
        assert all[i] == pages[i];
        assert more[2 * i] == sent[2 * i] && more[2 * i + 1] == sent[2 * i + 1];
      }
    }
  }

  /** When the bucket refuses the first save, the loop stops there: nothing is stored and nothing is published. */
  lemma {:induction false} RefusedSavePublishesNothing(w: World, cfg: Config, u: Upload, version: Option<string>, pages: seq<PageImage>)
    requires cfg.bucket in w.readOnly && pages != []
    ensures RenderAll(w, cfg, u, version, pages) == (w, Some(AccessDenied(cfg.bucket)))
  {
    if |pages| > 1 {
      RefusedSavePublishesNothing(w, cfg, u, version, pages[..|pages| - 1]);
    } else {
      assert pages[..0] == [];
    }
  }

  lemma {:induction false} RenderAllDeletesNothing(w: World, cfg: Config, u: Upload, version: Option<string>, pages: seq<PageImage>)
    ensures AppendsNoDelete(w, RenderAll(w, cfg, u, version, pages).0)
  {
    if pages == [] {
      NothingAppended(w);
    } else {
      var init := pages[..|pages| - 1];
      RenderAllDeletesNothing(w, cfg, u, version, init);
      var (prev, f) := RenderAll(w, cfg, u, version, init);
      var key := PageKey(u.owner, u.uploadId, |pages|);
      var put := PutObject(prev, cfg.bucket, key, WebpBody(pages[|pages| - 1]));
      if f.None? && put.Ok? {
        OneEffectNoDelete(prev, put.value, Put(cfg.bucket, key, WebpBody(pages[|pages| - 1])));
        var w' := RenderAll(w, cfg, u, version, pages).0;
        OneEffectNoDelete(put.value, w', Publish(cfg.topic, PageMessage(cfg, u, version, |pages|)));
        AppendsNoDeleteChain(prev, put.value, w');
        AppendsNoDeleteChain(w, prev, w');
      }
    }
  }

  lemma {:induction false} ProcessAllDeletesNothing(w: World, cfg: Config, unquote: Unquote, raster: Rasteriser, recs: seq<PdfRecord>)
    ensures AppendsNoDelete(w, ProcessAll(w, cfg, unquote, raster, recs).0)
  {
    if recs == [] {
      NothingAppended(w);
    } else {
      var init := recs[..|recs| - 1];
      ProcessAllDeletesNothing(w, cfg, unquote, raster, init);
      var (prev, f) := ProcessAll(w, cfg, unquote, raster, init);
      if f.None? {
        var rec := recs[|recs| - 1];
        var w' := ProcessPdf(prev, cfg, unquote, raster, rec);
        if w'.0 == prev {
          NothingAppended(prev);
        } else {
          var key := unquote(rec.key.value);
          RenderAllDeletesNothing(prev, cfg, ParseKey(key).value, rec.versionId, LoadPages(prev, cfg, raster, key, rec.versionId).value);
        }
        AppendsNoDeleteChain(w, prev, w'.0);
      }
    }
  }

  lemma RecordStepDisciplined(w: World, cfg: Config, unquote: Unquote, raster: Rasteriser, rec: RenderRecord)
    ensures Disciplined(w, RecordStep(w, cfg, unquote, raster, rec), cfg.queue)
  {
    if rec.body.Wrapped? && rec.body.message.Some? {
      var (w', failure) := ProcessAll(w, cfg, unquote, raster, rec.body.message.value);
      ProcessAllDeletesNothing(w, cfg, unquote, raster, rec.body.message.value);
      DeleteLastIsDisciplined(w, w', cfg.queue, if failure.None? then rec.receiptHandle else None);
    } else {
      NothingAppended(w);
      DeleteLastIsDisciplined(w, w, cfg.queue, None);
    }
  }

  /**
   * `lambda_handler` raises exactly when the first record's body does not parse, and
   * then has done nothing. Otherwise it returns 200, and the SQS messages it deleted
   * are exactly those of the records whose PDFs were all rendered and that carried a
   * receipt handle, in record order.
   */
  lemma HandlerOutcome(w: World, cfg: Config, unquote: Unquote, raster: Rasteriser, records: seq<RenderRecord>)
    ensures var (w', response) := Handler(w, cfg, unquote, raster, records);
      && (response.Raises? <==> records != [] && records[0].body.Unreadable?)
      && (response.Raises? ==> w' == w && response.failure == UnboundLocal("s3_event"))
      && (!response.Raises? ==> response == Ok200)
    ensures var (w', response) := Handler(w, cfg, unquote, raster, records);
      var run := Run(w, records, StepFn(cfg, unquote, raster));
      !response.Raises? ==> |w.log| <= |w'.log| && w'.log[..|w.log|] == w.log && Deleted(Appended(w, w')) == run.1
  {
    forall v: World, rec: RenderRecord ensures Disciplined(v, StepFn(cfg, unquote, raster)(v, rec), cfg.queue) {
      RecordStepDisciplined(v, cfg, unquote, raster, rec);
    }
    RunDeletesExactlyAcked(w, records, StepFn(cfg, unquote, raster), cfg.queue);
  }

  /** Page `i + 1` of `pages` is stored under its key in the configured bucket. */
  ghost predicate PageStored(objects: map<(string, string), Blob>, cfg: Config, u: Upload, pages: seq<PageImage>, i: nat)
    requires i < |pages|
  {
    var key := (cfg.bucket, PageKey(u.owner, u.uploadId, i + 1));
    key in objects && objects[key] == WebpBody(pages[i])
  }

  /** With a writable bucket, after the page loop every page is stored under its own key. */
  lemma {:induction false} EveryPageStored(w: World, cfg: Config, u: Upload, version: Option<string>, pages: seq<PageImage>)
    requires cfg.bucket !in w.readOnly
    ensures forall i :: 0 <= i < |pages| ==> PageStored(RenderAll(w, cfg, u, version, pages).0.objects, cfg, u, pages, i)
  {
    if pages != [] {
      var init := pages[..|pages| - 1];
      var n := |pages|;
      EveryPageStored(w, cfg, u, version, init);
      SavesBeforePublishing(w, cfg, u, version, init);
      var prev := RenderAll(w, cfg, u, version, init).0;
      var objects := RenderAll(w, cfg, u, version, pages).0.objects;
      assert objects == prev.objects[(cfg.bucket, PageKey(u.owner, u.uploadId, n)) := WebpBody(pages[n - 1])];
      forall i | 0 <= i < n ensures PageStored(objects, cfg, u, pages, i) {
        if i < n - 1 {
          PageKeysDistinct(u.owner, u.uploadId, i + 1, n);
          assert PageStored(prev.objects, cfg, u, init, i);
          assert pages[i] == init[i];
        }
      }
    }
  }

  // ---------------------------------------------------------------------------
  // The handler as the source runs it
  // ---------------------------------------------------------------------------

  /** `load_pdf_as_images`. */
  method LoadPdfAsImages(cloud: Cloud, cfg: Config, raster: Rasteriser, key: string, version: Option<string>)
    returns (r: Result<seq<PageImage>, Failure>)
    ensures r == LoadPages(cloud.State(), cfg, raster, key, version)
  {
    var params := LoadParams(cfg, key, version);
    var blob := cloud.Get(params.bucket, params.key);
    if blob.Err? {
      return Err(blob.error);
    }
    var pages := raster(blob.value);
    if pages.None? {
      return Err(Foreign("pdf2image"));
    }
    r := Ok(pages.value);
  }

  /** The page loop of `process_pdf`: for each page, `save_rendered_page_to_bucket`, then `sns_client.publish`. */
  method SaveAndPublishPages(cloud: Cloud, cfg: Config, u: Upload, version: Option<string>, pages: seq<PageImage>)
    returns (failure: Option<Failure>)
    modifies cloud
    ensures (cloud.State(), failure) == RenderAll(old(cloud.State()), cfg, u, version, pages)
  {
    ghost var w := cloud.State();
    var pageIndex := 0;
    while pageIndex < |pages|
      invariant 0 <= pageIndex <= |pages|
      invariant RenderAll(w, cfg, u, version, pages[..pageIndex]) == (cloud.State(), None)
    {
      assert pages[..pageIndex + 1][..pageIndex] == pages[..pageIndex];
      var pageObjectKey := PageKey(u.owner, u.uploadId, pageIndex + 1);
      failure := cloud.Put(cfg.bucket, pageObjectKey, WebpBody(pages[pageIndex]));
      if failure.Some? {
        RenderAllStop(w, cfg, u, version, pages, pageIndex + 1);
        return;
      }
      cloud.Publish(cfg.topic, PageMessage(cfg, u, version, pageIndex + 1));
      pageIndex := pageIndex + 1;
    }
    assert pages[..pageIndex] == pages;
    failure := None;
  }

  /** `process_pdf`. */
  method ProcessPdfRecord(cloud: Cloud, cfg: Config, unquote: Unquote, raster: Rasteriser, rec: PdfRecord)
    returns (failure: Option<Failure>)
    modifies cloud
    ensures (cloud.State(), failure) == ProcessPdf(old(cloud.State()), cfg, unquote, raster, rec)
  {
    if rec.key.None? {
      return Some(KeyError("key"));
    }
    var objectKey := unquote(rec.key.value);
    var upload := ParseKey(objectKey);
    if upload.Err? {
      return Some(upload.error);
    }
    if rec.bucket.None? {
      return Some(KeyError("name"));
    }
    var pages := LoadPdfAsImages(cloud, cfg, raster, objectKey, rec.versionId);
    if pages.Err? {
      return Some(pages.error);
    }
    failure := SaveAndPublishPages(cloud, cfg, upload.value, rec.versionId, pages.value);
  }

  /** `for s3_record in s3_event['Records']: process_pdf(s3_record)`. */
  method ProcessS3Records(cloud: Cloud, cfg: Config, unquote: Unquote, raster: Rasteriser, recs: seq<PdfRecord>)
    returns (failure: Option<Failure>)
    modifies cloud
    ensures (cloud.State(), failure) == ProcessAll(old(cloud.State()), cfg, unquote, raster, recs)
  {
    ghost var w := cloud.State();
    var j := 0;
    while j < |recs|
      invariant 0 <= j <= |recs|
      invariant ProcessAll(w, cfg, unquote, raster, recs[..j]) == (cloud.State(), None)
    {
      assert recs[..j + 1][..j] == recs[..j];
      failure := ProcessPdfRecord(cloud, cfg, unquote, raster, recs[j]);
      if failure.Some? {
        ProcessAllStop(w, cfg, unquote, raster, recs, j + 1);
        return;
      }
      j := j + 1;
    }
    assert recs[..j] == recs;
    failure := None;
  }

  /** `lambda_handler`. */
  method LambdaHandler(cloud: Cloud, cfg: Config, unquote: Unquote, raster: Rasteriser, records: seq<RenderRecord>)
    returns (response: Response)
    modifies cloud
    ensures (cloud.State(), response) == Handler(old(cloud.State()), cfg, unquote, raster, records)
  {
    ghost var w := cloud.State();
    var s3EventBound := false;
    var i := 0;
    while i < |records|
      invariant 0 <= i <= |records|
      invariant cloud.State() == Run(w, records[..i], StepFn(cfg, unquote, raster)).0
      invariant s3EventBound <==> i > 0 && !records[0].body.Unreadable?
      invariant i > 0 ==> s3EventBound
    {
      var rec := records[i];
      assert records[..i + 1][..i] == records[..i];
      if rec.body.Unreadable? {
        if !s3EventBound {
          return Raises(UnboundLocal("s3_event"));
        }
      } else {
        s3EventBound := true;
        if rec.body.message.Some? {
          var failure := ProcessS3Records(cloud, cfg, unquote, raster, rec.body.message.value);
          if failure.None? && rec.receiptHandle.Some? {
            cloud.Delete(cfg.queue, rec.receiptHandle.value);
          }
        }
      }
      i := i + 1;
    }
    assert records[..i] == records;
    response := Ok200;
  }

  lemma {:induction false} RenderAllStop(w: World, cfg: Config, u: Upload, version: Option<string>, pages: seq<PageImage>, n: nat)
    requires n <= |pages| && RenderAll(w, cfg, u, version, pages[..n]).1.Some?
    ensures RenderAll(w, cfg, u, version, pages) == RenderAll(w, cfg, u, version, pages[..n])
    decreases |pages| - n
  {
    if n < |pages| {
      assert pages[..n + 1][..n] == pages[..n];
      RenderAllStop(w, cfg, u, version, pages, n + 1);
    } else {
      assert pages[..n] == pages;
    }
  }

  lemma {:induction false} ProcessAllStop(w: World, cfg: Config, unquote: Unquote, raster: Rasteriser, recs: seq<PdfRecord>, n: nat)
    requires n <= |recs| && ProcessAll(w, cfg, unquote, raster, recs[..n]).1.Some?
    ensures ProcessAll(w, cfg, unquote, raster, recs) == ProcessAll(w, cfg, unquote, raster, recs[..n])
    decreases |recs| - n
  {
    if n < |recs| {
      assert recs[..n + 1][..n] == recs[..n];
      ProcessAllStop(w, cfg, unquote, raster, recs, n + 1);
    } else {
      assert recs[..n] == recs;
    }
  }
}
