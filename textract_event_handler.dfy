/**
 * The Textract completion handler (functions/textract-event-handler): on a
 * SUCCEEDED job it lists the job's output parts, merges them into one
 * Textract response and writes it to `{JobTag}/textract.json` in the metadata
 * bucket.
 */
module TextractEventHandler {
  import opened Wrappers
  import opened Json
  import opened Aws
  import opened NullStrip
  import opened RecordLoop

  /** METADATA_BUCKET_NAME and TEXTRACT_STATUS_QUEUE_URL, read once at start-up. */
  datatype Config = Config(metadataBucket: string, statusQueue: string)

  datatype Location = Location(s3Bucket: Option<string>, s3ObjectName: Option<string>)

  /** The job-completion notification; a key the message lacks is None. */
  datatype JobNotification = JobNotification(
    status: Option<string>,
    documentLocation: Option<Location>,
    jobTag: Option<string>,
    jobId: Option<string>)

  type StatusRecord = SqsRecord<JobNotification>

  /**
   * The keys `list_objects_v2` returns under a prefix, across all result pages,
   * in listing order (a page without `Contents` contributes nothing).
   */
  type Lister = string -> seq<string>

  /** `list_objects_v2(Prefix=p)` returns only keys that start with `p`. */
  ghost predicate ListsUnderPrefix(lister: Lister)
  {
    forall p, k :: k in lister(p) ==> p <= k
  }

  const Sentinel: string := ".s3_access_check"

  predicate EndsWith(s: string, suffix: string)
  {
    |suffix| <= |s| && s[|s| - |suffix|..] == suffix
  }

  predicate IsSentinel(key: string)
  {
    EndsWith(key, Sentinel)
  }

  function PartsPrefix(jobId: string): string
  {
    "textract_output/" + jobId + "/"
  }

  function OutputKey(jobTag: string): string
  {
    jobTag + "/textract.json"
  }

  /** The listed keys aggregation reads: everything but the access-check marker, in order. */
  function DataKeys(keys: seq<string>): (r: seq<string>)
    ensures |r| <= |keys|
    ensures forall i :: 0 <= i < |r| ==> !IsSentinel(r[i])
    ensures forall k :: k in r ==> k in keys
  {
    if keys == [] then []
    else DataKeys(keys[..|keys| - 1]) + (if IsSentinel(keys[|keys| - 1]) then [] else [keys[|keys| - 1]])
  }

  /** The filter keeps exactly the listed keys that are not access-check markers. */
  lemma {:induction false} DataKeysExact(keys: seq<string>, k: string)
    ensures k in DataKeys(keys) <==> k in keys && !IsSentinel(k)
  {
    if keys != [] {
      var init := keys[..|keys| - 1];
      DataKeysExact(init, k);
      assert keys == init + [keys[|keys| - 1]];
    }
  }

  /** `read_s3_json_object`: get the object and parse it; either step can raise. */
  function ReadJson(w: World, bucket: string, key: string): Result<Json, Failure>
  {
    match GetObject(w, bucket, key)
    case Err(e) => Err(e)
    case Ok(blob) => if blob.JsonBody? then Ok(blob.doc) else Err(Malformed(bucket, key))
  }

  /** `data['Blocks']`: a KeyError on a dict without it, a TypeError on anything but a dict. */
  function BlocksOf(data: Json): (r: Result<Json, Failure>)
  {
    if !data.JObj? then Err(TypeError)
    else match Lookup(data.fields, "Blocks")
      case None => Err(KeyError("Blocks"))
      case Some(b) => Ok(b)
  }

  /**
   * One data part folded into `output`: the first part becomes the envelope with
   * its Blocks null-stripped; a later part's stripped Blocks are appended with
   * `+=`. A `+=` of anything but two lists is a TypeError here.
   */
  function MergePart(output: Option<Json>, data: Json): Result<Option<Json>, Failure>
  {
    match BlocksOf(data)
    case Err(e) => Err(e)
    case Ok(blocks) =>
      if output.None? then Ok(Some(JObj(Assign(data.fields, "Blocks", RemoveNone(blocks)))))
      else
        var out := output.value;
        var current := if out.JObj? then Lookup(out.fields, "Blocks") else None;
        var added := RemoveNone(blocks);
        if current.Some? && current.value.JArr? && added.JArr? then
          Ok(Some(JObj(Assign(out.fields, "Blocks", JArr(current.value.items + added.items)))))
        else Err(TypeError)
  }

  /** One listed key: the sentinel is skipped without being read. */
  function AddKey(w: World, bucket: string, output: Option<Json>, key: string): Result<Option<Json>, Failure>
  {
    if IsSentinel(key) then Ok(output)
    else match ReadJson(w, bucket, key)
      case Err(e) => Err(e)
      case Ok(data) => MergePart(output, data)
  }

  /** `aggregate_textract_parts` over the listed keys; the first exception ends it. */
  function Aggregate(w: World, bucket: string, keys: seq<string>): Result<Option<Json>, Failure>
  {
    if keys == [] then Ok(None)
    else match Aggregate(w, bucket, keys[..|keys| - 1])
      case Err(e) => Err(e)
      case Ok(output) => AddKey(w, bucket, output, keys[|keys| - 1])
  }

  /** A part whose Blocks are a list, as Textract writes them. */
  predicate WellFormedPart(p: Json)
  {
    p.JObj? && Lookup(p.fields, "Blocks").Some? && Lookup(p.fields, "Blocks").value.JArr?
  }

  function BlocksList(p: Json): seq<Json>
    requires WellFormedPart(p)
  {
    Lookup(p.fields, "Blocks").value.items
  }

  /** Every part's null-stripped Blocks, concatenated in listing order. */
  function AllBlocks(parts: seq<Json>): seq<Json>
    requires forall i :: 0 <= i < |parts| ==> WellFormedPart(parts[i])
  {
    if parts == [] then []
    else
      assert WellFormedPart(parts[|parts| - 1]);
      AllBlocks(parts[..|parts| - 1]) + RemoveNoneItems(BlocksList(parts[|parts| - 1]))
  }

  /** The merged result the source promises: the first part with its Blocks replaced by all parts' stripped Blocks. */
  function Envelope(parts: seq<Json>): Json
    requires |parts| > 0
    requires forall i :: 0 <= i < |parts| ==> WellFormedPart(parts[i])
  {
    assert WellFormedPart(parts[0]);
    JObj(Assign(parts[0].fields, "Blocks", JArr(AllBlocks(parts))))
  }

  lemma {:induction false} AssignTwice(fields: seq<(string, Json)>, key: string, v1: Json, v2: Json)
    ensures Assign(Assign(fields, key, v1), key, v2) == Assign(fields, key, v2)
  {
    if fields != [] && fields[0].0 != key {
      AssignTwice(fields[1..], key, v1, v2);
    }
  }

  /** Once an exception is raised, the keys after it change nothing. */
  lemma {:induction false} FailureIsFinal(w: World, bucket: string, keys: seq<string>, n: nat)
    requires n <= |keys|
    requires Aggregate(w, bucket, keys[..n]).Err?
    ensures Aggregate(w, bucket, keys) == Aggregate(w, bucket, keys[..n])
    decreases |keys| - n
  {
    if n < |keys| {
      assert keys[..n + 1][..n] == keys[..n];
      FailureIsFinal(w, bucket, keys, n + 1);
    } else {
      assert keys[..n] == keys;
    }
  }

  /** Sentinel keys are skipped: aggregating the listing is aggregating its data keys. */
  lemma {:induction false} SentinelsIgnored(w: World, bucket: string, keys: seq<string>)
    ensures Aggregate(w, bucket, keys) == Aggregate(w, bucket, DataKeys(keys))
  {
    if keys != [] {
      var init, last := keys[..|keys| - 1], keys[|keys| - 1];
      SentinelsIgnored(w, bucket, init);
      assert keys[..|keys| - 1] == init;
      if !IsSentinel(last) {
        var dk := DataKeys(init) + [last];
        assert dk[..|dk| - 1] == DataKeys(init);
      } else {
        assert DataKeys(keys) == DataKeys(init);
      }
    }
  }

  /** Aggregation reads only the data parts: two stores that agree on them give the same result. */
  lemma {:induction false} OnlyDataPartsAreRead(w1: World, w2: World, bucket: string, keys: seq<string>)
    requires forall k :: k in DataKeys(keys) ==> GetObject(w1, bucket, k) == GetObject(w2, bucket, k)
    ensures Aggregate(w1, bucket, keys) == Aggregate(w2, bucket, keys)
  {
    if keys != [] {
      var init := keys[..|keys| - 1];
      assert forall k :: k in DataKeys(init) ==> k in DataKeys(keys);
      OnlyDataPartsAreRead(w1, w2, bucket, init);
    }
  }

  /** Without data parts the result is None (written out as `null`). */
  lemma NoDataPartsGivesNone(w: World, bucket: string, keys: seq<string>)
    requires DataKeys(keys) == []
    ensures Aggregate(w, bucket, keys) == Ok(None)
  {
    SentinelsIgnored(w, bucket, keys);
  }

  /**
   * The merge itself: with well-formed parts read in listing order, the result is
   * the first part with its other fields as they are and with Blocks equal to the
   * concatenation, over the parts, of their null-stripped Blocks.
   */
  lemma AggregateConcatenatesBlocks(w: World, bucket: string, keys: seq<string>, parts: seq<Json>)
    requires |parts| == |DataKeys(keys)| > 0
    requires forall i :: 0 <= i < |parts| ==> ReadJson(w, bucket, DataKeys(keys)[i]) == Ok(parts[i])
    requires forall i :: 0 <= i < |parts| ==> WellFormedPart(parts[i])
    ensures Aggregate(w, bucket, keys) == Ok(Some(Envelope(parts)))
  {
    SentinelsIgnored(w, bucket, keys);
    var dk := DataKeys(keys);
    MergeDataKeys(w, bucket, dk, parts, |parts|);
    assert dk[..|parts|] == dk;
    assert parts[..|parts|] == parts;
  }

  lemma {:induction false} MergeDataKeys(w: World, bucket: string, dk: seq<string>, parts: seq<Json>, n: nat)
    requires |parts| == |dk| && 0 < n <= |dk|
    requires forall i :: 0 <= i < |dk| ==> !IsSentinel(dk[i])
    requires forall i :: 0 <= i < |parts| ==> ReadJson(w, bucket, dk[i]) == Ok(parts[i])
    requires forall i :: 0 <= i < |parts| ==> WellFormedPart(parts[i])
    ensures Aggregate(w, bucket, dk[..n]) == Ok(Some(Envelope(parts[..n])))
  {
    if n == 1 {
      MergeFirstKey(w, bucket, dk, parts[0]);
      assert parts[..1] == [parts[0]];
    } else {
      MergeDataKeys(w, bucket, dk, parts, n - 1);
      var prefix := parts[..n];
      assert prefix[..n - 1] == parts[..n - 1];
      MergeNextKey(w, bucket, dk, prefix, n);
    }
  }

  lemma MergeFirstKey(w: World, bucket: string, dk: seq<string>, p: Json)
    requires |dk| > 0 && !IsSentinel(dk[0]) && ReadJson(w, bucket, dk[0]) == Ok(p) && WellFormedPart(p)
    ensures Aggregate(w, bucket, dk[..1]) == Ok(Some(Envelope([p])))
  {
    assert dk[..0] == [];
    AggregateStep(w, bucket, dk, 0);
    FirstPartIsEnvelope(p);
  }

  lemma MergeNextKey(w: World, bucket: string, dk: seq<string>, prefix: seq<Json>, n: nat)
    requires 1 < n == |prefix| <= |dk|
    requires forall i :: 0 <= i < |prefix| ==> WellFormedPart(prefix[i])
    requires Aggregate(w, bucket, dk[..n - 1]) == Ok(Some(Envelope(prefix[..n - 1])))
    requires !IsSentinel(dk[n - 1]) && ReadJson(w, bucket, dk[n - 1]) == Ok(prefix[n - 1])
    ensures Aggregate(w, bucket, dk[..n]) == Ok(Some(Envelope(prefix)))
  {
    AggregateStep(w, bucket, dk, n - 1);
    LaterPartAppends(prefix, n - 1);
  }

  /** Reading one more listed key continues from the result of the keys before it. */
  lemma AggregateStep(w: World, bucket: string, keys: seq<string>, n: nat)
    requires n < |keys| && Aggregate(w, bucket, keys[..n]).Ok?
    ensures Aggregate(w, bucket, keys[..n + 1]) == AddKey(w, bucket, Aggregate(w, bucket, keys[..n]).value, keys[n])
  {
    assert keys[..n + 1][..n] == keys[..n];
  }

  lemma FirstPartIsEnvelope(p: Json)
    requires WellFormedPart(p)
    ensures MergePart(None, p) == Ok(Some(Envelope([p])))
  {
    assert [p][..0] == [];
    assert AllBlocks([p]) == RemoveNoneItems(BlocksList(p));
    var b := Lookup(p.fields, "Blocks").value;
    assert BlocksOf(p) == Ok(b);
    assert RemoveNone(b) == JArr(RemoveNoneItems(b.items));
  }

  lemma LaterPartAppends(parts: seq<Json>, last: nat)
    requires last + 1 == |parts| && last > 0
    requires forall i :: 0 <= i < |parts| ==> WellFormedPart(parts[i])
    ensures MergePart(Some(Envelope(parts[..last])), parts[last]) == Ok(Some(Envelope(parts)))
  {
    var init := parts[..last];
    var p := parts[last];
    assert WellFormedPart(p);
    var acc := AllBlocks(init);
    assert init[0] == parts[0];
    assert Lookup(Envelope(init).fields, "Blocks") == Some(JArr(acc));
    assert AllBlocks(parts) == acc + RemoveNoneItems(BlocksList(p));
    var b := Lookup(p.fields, "Blocks").value;
    assert RemoveNone(b) == JArr(RemoveNoneItems(b.items));
    AssignTwice(parts[0].fields, "Blocks", JArr(acc), JArr(AllBlocks(parts)));
  }

  /** A data part without Blocks makes the aggregation raise, so nothing is written. */
  lemma MissingBlocksFails(w: World, bucket: string, keys: seq<string>, i: nat, part: Json)
    requires i < |DataKeys(keys)|
    requires ReadJson(w, bucket, DataKeys(keys)[i]) == Ok(part)
    requires part.JObj? && "Blocks" !in Keys(part.fields)
    ensures Aggregate(w, bucket, keys).Err?
  {
    var dk := DataKeys(keys);
    SentinelsIgnored(w, bucket, keys);
    BlocklessPartFails(w, bucket, dk, i, part);
  }

  lemma BlocklessPartFails(w: World, bucket: string, dk: seq<string>, i: nat, part: Json)
    requires i < |dk| && !IsSentinel(dk[i]) && ReadJson(w, bucket, dk[i]) == Ok(part)
    requires BlocksOf(part).Err?
    ensures Aggregate(w, bucket, dk).Err?
  {
    if Aggregate(w, bucket, dk[..i]).Err? {
      FailureIsFinal(w, bucket, dk, i);
    } else {
      AggregateStep(w, bucket, dk, i);
      FailureIsFinal(w, bucket, dk, i + 1);
    }
  }

  /** `json.dumps(output)` with None written as JSON `null`. */
  function Dumped(output: Option<Json>): Json
  {
    if output.Some? then output.value else JNull
  }

  /**
   * `handle_record_message`: the five lookups, then, for a SUCCEEDED job only,
   * aggregation and one `put_object`. The second component is the exception, if any.
   */
  function HandledMessage(w: World, cfg: Config, lister: Lister, msg: JobNotification): (World, Option<Failure>)
  {
    if msg.status.None? then (w, Some(KeyError("Status")))
    else if msg.documentLocation.None? then (w, Some(KeyError("DocumentLocation")))
    else if msg.documentLocation.value.s3ObjectName.None? then (w, Some(KeyError("S3ObjectName")))
    else if msg.documentLocation.value.s3Bucket.None? then (w, Some(KeyError("S3Bucket")))
    else if msg.jobTag.None? then (w, Some(KeyError("JobTag")))
    else if msg.status.value != "SUCCEEDED" then (w, None)
    else if msg.jobId.None? then (w, Some(KeyError("JobId")))
    else
      match Aggregate(w, cfg.metadataBucket, lister(PartsPrefix(msg.jobId.value)))
      case Err(e) => (w, Some(e))
      case Ok(output) =>
        match PutObject(w, cfg.metadataBucket, OutputKey(msg.jobTag.value), JsonBody(Dumped(output)))
        case Err(e) => (w, Some(e))
        case Ok(w') => (w', None)
  }

  /** The notification carries every key `handle_record_message` reads before the status test. */
  predicate Complete(msg: JobNotification)
  {
    msg.status.Some? && msg.documentLocation.Some? && msg.documentLocation.value.s3ObjectName.Some?
    && msg.documentLocation.value.s3Bucket.Some? && msg.jobTag.Some?
  }

  /**
   * Status gating: a job that did not succeed leaves the store and the log as they
   * were; a SUCCEEDED job that returns normally made exactly one write, a full
   * overwrite of `{JobTag}/textract.json` with the aggregated result.
   */
  lemma StatusGating(w: World, cfg: Config, lister: Lister, msg: JobNotification)
    ensures var (w', f) := HandledMessage(w, cfg, lister, msg);
      && (msg.status != Some("SUCCEEDED") ==> w' == w)
      && (f.Some? ==> w' == w)
      && (f.None? && msg.status == Some("SUCCEEDED") ==>
            && msg.jobId.Some? && msg.jobTag.Some?
            && var out := Aggregate(w, cfg.metadataBucket, lister(PartsPrefix(msg.jobId.value)));
            && out.Ok?
            && var blob := JsonBody(Dumped(out.value));
            && w'.log == w.log + [Put(cfg.metadataBucket, OutputKey(msg.jobTag.value), blob)]
            && w'.objects == w.objects[(cfg.metadataBucket, OutputKey(msg.jobTag.value)) := blob])
  {
  }

  /**
   * Redelivery: handling the same SUCCEEDED notification again, on the store the
   * first run left, stores the same value at the same key. The write is a full
   * overwrite, and the result key lies outside the job's parts prefix, so the
   * listing never holds it and the parts read the second time are the same.
   */
  lemma {:induction false} ReprocessingIsIdempotent(w: World, cfg: Config, lister: Lister, msg: JobNotification)
    requires ListsUnderPrefix(lister)
    requires msg.status == Some("SUCCEEDED") && msg.jobId.Some? && msg.jobTag.Some?
    requires !(PartsPrefix(msg.jobId.value) <= OutputKey(msg.jobTag.value))
    requires HandledMessage(w, cfg, lister, msg).1.None?
    ensures var w1 := HandledMessage(w, cfg, lister, msg).0;
      HandledMessage(w1, cfg, lister, msg) == (w1.(log := w1.log + [w1.log[|w1.log| - 1]]), None)
  {
    var w1 := HandledMessage(w, cfg, lister, msg).0;
    var prefix := PartsPrefix(msg.jobId.value);
    var keys := lister(prefix);
    var outKey := OutputKey(msg.jobTag.value);
    forall k | k in DataKeys(keys) ensures GetObject(w1, cfg.metadataBucket, k) == GetObject(w, cfg.metadataBucket, k) {
      assert k in keys;
      assert prefix <= k;
      assert k != outKey;
    }
    OnlyDataPartsAreRead(w1, w, cfg.metadataBucket, keys);
    var blob := JsonBody(Dumped(Aggregate(w, cfg.metadataBucket, keys).value));
    assert w1.objects[(cfg.metadataBucket, outKey) := blob] == w1.objects;
  }

  /** One record inside its try block: parse, take the receipt handle, handle, delete. */
  function RecordStep(w: World, cfg: Config, lister: Lister, rec: StatusRecord): StepResult
  {
    match rec.body
    case Unreadable => StepResult(w, None)
    case Wrapped(message) =>
      if message.None? || rec.receiptHandle.None? then StepResult(w, None)
      else
        var (w', failure) := HandledMessage(w, cfg, lister, message.value);
        if failure.Some? then StepResult(w', None)
        else StepResult(DeleteMessage(w', cfg.statusQueue, rec.receiptHandle.value), rec.receiptHandle)
  }

  function StepFn(cfg: Config, lister: Lister): (World, StatusRecord) -> StepResult
  {
    (w: World, rec: StatusRecord) => RecordStep(w, cfg, lister, rec)
  }

  /** Handling a notification appends at most one write and never a delete. */
  lemma HandledMessageDeletesNothing(w: World, cfg: Config, lister: Lister, msg: JobNotification)
    ensures var w' := HandledMessage(w, cfg, lister, msg).0;
      |w.log| <= |w'.log| && w'.log[..|w.log|] == w.log && Deleted(Appended(w, w')) == []
  {
    var w' := HandledMessage(w, cfg, lister, msg).0;
    StatusGating(w, cfg, lister, msg);
    if w' != w {
      assert Appended(w, w') == [w'.log[|w.log|]];
      assert !w'.log[|w.log|].Delete?;
    } else {
      assert Appended(w, w') == [];
    }
  }

  /** One record keeps the failure-boundary discipline: delete last, and only on success. */
  lemma RecordStepDisciplined(w: World, cfg: Config, lister: Lister, rec: StatusRecord)
    ensures Disciplined(w, RecordStep(w, cfg, lister, rec), cfg.statusQueue)
  {
    if rec.body.Wrapped? && rec.body.message.Some? && rec.receiptHandle.Some? {
      var (w', failure) := HandledMessage(w, cfg, lister, rec.body.message.value);
      HandledMessageDeletesNothing(w, cfg, lister, rec.body.message.value);
      DeleteLastIsDisciplined(w, w', cfg.statusQueue, if failure.None? then rec.receiptHandle else None);
    } else {
      NothingAppended(w);
      DeleteLastIsDisciplined(w, w, cfg.statusQueue, None);
    }
  }

  lemma RecordStepAcksAfterWork(cfg: Config, lister: Lister)
    ensures AcksAfterWork(StepFn(cfg, lister), cfg.statusQueue)
  {
    forall w: World, rec: StatusRecord ensures Disciplined(w, StepFn(cfg, lister)(w, rec), cfg.statusQueue) {
      RecordStepDisciplined(w, cfg, lister, rec);
    }
  }

  /**
   * `lambda_handler`: the SQS messages deleted are exactly those of the records
   * whose handling returned normally, in record order; the handler returns 200.
   */
  lemma HandlerDeletesExactlyHandled(w: World, cfg: Config, lister: Lister, records: seq<StatusRecord>)
    ensures var r := Run(w, records, StepFn(cfg, lister));
      |w.log| <= |r.0.log| && r.0.log[..|w.log|] == w.log && Deleted(Appended(w, r.0)) == r.1
  {
    RecordStepAcksAfterWork(cfg, lister);
    RunDeletesExactlyAcked(w, records, StepFn(cfg, lister), cfg.statusQueue);
  }

  /**
   * `aggregate_textract_parts` as the source runs it: one pass over the listing
   * with a mutable `output`. `read` lists the objects fetched, in order.
   */
  method AggregateTextractParts(cloud: Cloud, bucket: string, keys: seq<string>)
    returns (r: Result<Option<Json>, Failure>, read: seq<string>)
    ensures r == Aggregate(cloud.State(), bucket, keys)
    ensures forall i :: 0 <= i < |read| ==> !IsSentinel(read[i])
    ensures r.Ok? ==> read == DataKeys(keys)
  {
    ghost var w := cloud.State();
    var output: Option<Json> := None;
    read := [];
    var i := 0;
    while i < |keys|
      invariant 0 <= i <= |keys|
      invariant Aggregate(w, bucket, keys[..i]) == Ok(output)
      invariant read == DataKeys(keys[..i])
    {
      var key := keys[i];
      assert keys[..i + 1][..i] == keys[..i];
      if !EndsWith(key, Sentinel) {
        read := read + [key];
        var next := MergeObject(cloud, bucket, output, key);
        if next.Err? {
          r := next;
          FailureIsFinal(w, bucket, keys, i + 1);
          return;
        }
        output := next.value;
      }
      i := i + 1;
    }
    assert keys[..i] == keys;
    r := Ok(output);
  }

  /** The body of the inner loop for one data key: read it, then set or extend `output['Blocks']`. */
  method MergeObject(cloud: Cloud, bucket: string, output: Option<Json>, key: string)
    returns (r: Result<Option<Json>, Failure>)
    requires !IsSentinel(key)
    ensures r == AddKey(cloud.State(), bucket, output, key)
  {
    var got := cloud.Get(bucket, key);
    if got.Err? {
      return Err(got.error);
    }
    if !got.value.JsonBody? {
      return Err(Malformed(bucket, key));
    }
    var data := got.value.doc;
    if !data.JObj? {
      return Err(TypeError);
    }
    var blocks := Lookup(data.fields, "Blocks");
    if blocks.None? {
      return Err(KeyError("Blocks"));
    }
    if output.None? {
      return Ok(Some(JObj(Assign(data.fields, "Blocks", RemoveNone(blocks.value)))));
    }
    var out := output.value;
    var current := if out.JObj? then Lookup(out.fields, "Blocks") else None;
    var added := RemoveNone(blocks.value);
    if current.Some? && current.value.JArr? && added.JArr? {
      r := Ok(Some(JObj(Assign(out.fields, "Blocks", JArr(current.value.items + added.items)))));
    } else {
      r := Err(TypeError);
    }
  }

  /** `handle_record_message`, against the clients. */
  method HandleRecordMessage(cloud: Cloud, cfg: Config, lister: Lister, msg: JobNotification)
    returns (failure: Option<Failure>)
    modifies cloud
    ensures (cloud.State(), failure) == HandledMessage(old(cloud.State()), cfg, lister, msg)
  {
    if msg.status.None? { return Some(KeyError("Status")); }
    if msg.documentLocation.None? { return Some(KeyError("DocumentLocation")); }
    if msg.documentLocation.value.s3ObjectName.None? { return Some(KeyError("S3ObjectName")); }
    if msg.documentLocation.value.s3Bucket.None? { return Some(KeyError("S3Bucket")); }
    if msg.jobTag.None? { return Some(KeyError("JobTag")); }
    if msg.status.value != "SUCCEEDED" {
      // logged as discarded
      return None;
    }
    if msg.jobId.None? { return Some(KeyError("JobId")); }
    var outputKey := OutputKey(msg.jobTag.value);
    var output, _ := AggregateTextractParts(cloud, cfg.metadataBucket, lister(PartsPrefix(msg.jobId.value)));
    if output.Err? {
      return Some(output.error);
    }
    failure := cloud.Put(cfg.metadataBucket, outputKey, JsonBody(Dumped(output.value)));
  }

  /** `lambda_handler`: every record in its own failure boundary; always returns 200. */
  method LambdaHandler(cloud: Cloud, cfg: Config, lister: Lister, records: seq<StatusRecord>)
    returns (response: Response)
    modifies cloud
    ensures cloud.State() == Run(old(cloud.State()), records, StepFn(cfg, lister)).0
    ensures response == Ok200
  {
    ghost var w := cloud.State();
    var i := 0;
    while i < |records|
      invariant 0 <= i <= |records|
      invariant cloud.State() == Run(w, records[..i], StepFn(cfg, lister)).0
    {
      var rec := records[i];
      assert records[..i + 1][..i] == records[..i];
      if rec.body.Wrapped? && rec.body.message.Some? && rec.receiptHandle.Some? {
        var failure := HandleRecordMessage(cloud, cfg, lister, rec.body.message.value);
        if failure.None? {
          cloud.Delete(cfg.statusQueue, rec.receiptHandle.value);
        }
      }
      i := i + 1;
    }
    assert records[..i] == records;
    response := Ok200;
  }
}
