/**
 * The Lambda that turns a finished Textract JSON file into layout messages:
 * an S3 notification (wrapped in SNS, wrapped in SQS) names the aggregated
 * file, the file is parsed into pages of layouts, the layouts are flattened
 * into items and published to the output queue in batches of ten.
 *
 * `process_s3_event` is modelled twice. As written, the batch send sits after
 * the batch loop and each entry reads a `body` key no layout item has, so no
 * S3 record with layouts gets past its first item and one without layouts
 * reaches the send with `sqs_messages` unbound. The intended version sends
 * every batch inside the loop, with the item itself as the message body.
 */
module TextractOutputParser {
  import opened Wrappers
  import opened Json
  import opened Aws
  import opened RecordLoop
  import opened LayoutData
  import opened Batching

  /** `SQS_INPUT_QUEUE_URL` and `SQS_OUTPUT_QUEUE_URL`. */
  datatype Config = Config(inputQueue: string, outputQueue: string)

  /** One S3 notification record: `record['s3']['bucket']['name']` and `record['s3']['object']['key']`, None when absent. */
  datatype S3Record = S3Record(bucket: Option<string>, key: Option<string>)

  /** The S3 event inside the SNS message; `Records` is None when the key is absent. */
  datatype S3Event = S3Event(records: Option<seq<S3Record>>)

  type ParserRecord = SqsRecord<S3Event>

  /** textractor's `response_parser`: a Textract response as pages of layouts, or None when it raises. */
  type Parser = Json -> Option<Document>

  /** Which `process_s3_event` the handler runs. */
  datatype Variant = AsWritten | Intended

  /** `load_document_layout_from_s3`: fetch, decode, parse, flatten. */
  function LoadLayout(w: World, parser: Parser, bucket: string, key: string): Result<seq<Json>, Failure>
  {
    match GetObject(w, bucket, key)
    case Err(e) => Err(e)
    case Ok(blob) =>
      if !blob.JsonBody? then Err(Malformed(bucket, key))
      else match parser(blob.doc)
        case None => Err(Foreign("textractor"))
        case Some(doc) => Ok(LayoutItems(doc))
  }

  // ---------------------------------------------------------------------------
  // As written
  // ---------------------------------------------------------------------------

  /** `{'Id': message['id'], 'MessageBody': json.dumps(message['body'])}`. */
  function EntryAsWritten(message: Json): Result<Entry, Failure>
  {
    if !message.JObj? then Err(TypeError)
    else match Lookup(message.fields, "id")
      case None => Err(KeyError("id"))
      case Some(id) =>
        match Lookup(message.fields, "body")
        case None => Err(KeyError("body"))
        case Some(body) => Ok(Entry(id, body))
  }

  /** The inner `for message in batch` loop appending to `sqs_messages`; the first exception ends it. */
  function EntriesAsWritten(batch: seq<Json>): Result<seq<Entry>, Failure>
  {
    if batch == [] then Ok([])
    else match EntriesAsWritten(batch[..|batch| - 1])
      case Err(e) => Err(e)
      case Ok(es) =>
        match EntryAsWritten(batch[|batch| - 1])
        case Err(e) => Err(e)
        case Ok(entry) => Ok(es + [entry])
  }

  /**
   * `for batch in message_batches: sqs_messages = [] ...`: the value `sqs_messages`
   * holds after the loop, starting from `bound` (None: never assigned). Each batch
   * rebinds it, so only the last batch's entries survive.
   */
  function BatchLoop(batches: seq<seq<Json>>, bound: Option<seq<Entry>>): Result<Option<seq<Entry>>, Failure>
  {
    if batches == [] then Ok(bound)
    else match BatchLoop(batches[..|batches| - 1], bound)
      case Err(e) => Err(e)
      case Ok(_) =>
        match EntriesAsWritten(batches[|batches| - 1])
        case Err(e) => Err(e)
        case Ok(es) => Ok(Some(es))
  }

  /** What `process_s3_event` carries from one S3 record to the next: the world and the `sqs_messages` local. */
  datatype Locals = Locals(world: World, sqsMessages: Option<seq<Entry>>)

  /** One iteration of the record loop as written: batch, fill `sqs_messages`, send once after the batch loop. */
  function RecordAsWritten(loc: Locals, cfg: Config, parser: Parser, rec: S3Record): (Locals, Option<Failure>)
  {
    if rec.bucket.None? then (loc, Some(KeyError("name")))
    else if rec.key.None? then (loc, Some(KeyError("key")))
    else match LoadLayout(loc.world, parser, rec.bucket.value, rec.key.value)
      case Err(e) => (loc, Some(e))
      case Ok(layout) =>
        match BatchLoop(Batches(layout), loc.sqsMessages)
        case Err(e) => (loc, Some(e))
        case Ok(None) => (loc, Some(UnboundLocal("sqs_messages")))
        case Ok(Some(es)) => (Locals(SendMessageBatch(loc.world, cfg.outputQueue, es), Some(es)), None)
  }

  /** The record loop as written; the first exception leaves `process_s3_event`. */
  function RecordsAsWritten(loc: Locals, cfg: Config, parser: Parser, recs: seq<S3Record>): (Locals, Option<Failure>)
  {
    if recs == [] then (loc, None)
    else
      var (prev, f) := RecordsAsWritten(loc, cfg, parser, recs[..|recs| - 1]);
      if f.Some? then (prev, f) else RecordAsWritten(prev, cfg, parser, recs[|recs| - 1])
  }

  /** `process_s3_event` as written. */
  function ProcessAsWritten(w: World, cfg: Config, parser: Parser, event: S3Event): (World, Option<Failure>)
  {
    if event.records.None? then (w, Some(KeyError("Records")))
    else
      var (loc, f) := RecordsAsWritten(Locals(w, None), cfg, parser, event.records.value);
      (loc.world, f)
  }

  // ---------------------------------------------------------------------------
  // Intended
  // ---------------------------------------------------------------------------

  /** `{'Id': message['id'], 'MessageBody': json.dumps(message)}`: the item itself is the body. */
  function EntryIntended(message: Json): (r: Result<Entry, Failure>)
  {
    if !message.JObj? then Err(TypeError)
    else match Lookup(message.fields, "id")
      case None => Err(KeyError("id"))
      case Some(id) => Ok(Entry(id, message))
  }

  /** The entries of one batch; the first exception ends it. */
  function EntriesIntended(batch: seq<Json>): Result<seq<Entry>, Failure>
  {
    if batch == [] then Ok([])
    else match EntriesIntended(batch[..|batch| - 1])
      case Err(e) => Err(e)
      case Ok(es) =>
        match EntryIntended(batch[|batch| - 1])
        case Err(e) => Err(e)
        case Ok(entry) => Ok(es + [entry])
  }

  /** One `send_message_batch` per batch, inside the batch loop; sends already issued stay issued when a later batch fails. */
  function PublishIntended(w: World, queue: string, batches: seq<seq<Json>>): (World, Option<Failure>)
  {
    if batches == [] then (w, None)
    else
      var (prev, f) := PublishIntended(w, queue, batches[..|batches| - 1]);
      if f.Some? then (prev, f)
      else match EntriesIntended(batches[|batches| - 1])
        case Err(e) => (prev, Some(e))
        case Ok(es) => (SendMessageBatch(prev, queue, es), None)
  }

  function RecordIntended(w: World, cfg: Config, parser: Parser, rec: S3Record): (World, Option<Failure>)
  {
    if rec.bucket.None? then (w, Some(KeyError("name")))
    else if rec.key.None? then (w, Some(KeyError("key")))
    else match LoadLayout(w, parser, rec.bucket.value, rec.key.value)
      case Err(e) => (w, Some(e))
      case Ok(layout) => PublishIntended(w, cfg.outputQueue, Batches(layout))
  }

  function RecordsIntended(w: World, cfg: Config, parser: Parser, recs: seq<S3Record>): (World, Option<Failure>)
  {
    if recs == [] then (w, None)
    else
      var (prev, f) := RecordsIntended(w, cfg, parser, recs[..|recs| - 1]);
      if f.Some? then (prev, f) else RecordIntended(prev, cfg, parser, recs[|recs| - 1])
  }

  /** `process_s3_event` with the send inside the batch loop. */
  function ProcessIntended(w: World, cfg: Config, parser: Parser, event: S3Event): (World, Option<Failure>)
  {
    if event.records.None? then (w, Some(KeyError("Records")))
    else RecordsIntended(w, cfg, parser, event.records.value)
  }

  function Process(w: World, cfg: Config, parser: Parser, variant: Variant, event: S3Event): (World, Option<Failure>)
  {
    if variant.AsWritten? then ProcessAsWritten(w, cfg, parser, event) else ProcessIntended(w, cfg, parser, event)
  }

  // ---------------------------------------------------------------------------
  // What the as-written loop does
  // ---------------------------------------------------------------------------

  /** Every flattened layout item is a dict with an `id` and without a `body`. */
  lemma LayoutItemHasIdNoBody(doc: Document, i: nat)
    requires i < |LayoutItems(doc)|
    ensures LayoutItems(doc)[i].JObj?
    ensures Lookup(LayoutItems(doc)[i].fields, "id").Some?
    ensures Lookup(LayoutItems(doc)[i].fields, "body") == None
  {
    var p, o := Locate(doc, i);
    ItemPosition(doc, p, o);
    ItemIdField(doc[p][o], p, o);
    ItemHasNoBody(doc[p][o], p, o);
  }

  /** The entry loop stops at its first message when that message fails. */
  lemma {:induction false} EntriesAsWrittenFailAtFirst(batch: seq<Json>)
    requires |batch| > 0 && EntryAsWritten(batch[0]).Err?
    ensures EntriesAsWritten(batch) == Err(EntryAsWritten(batch[0]).error)
  {
    if |batch| > 1 {
      EntriesAsWrittenFailAtFirst(batch[..|batch| - 1]);
    } else {
      assert batch[..0] == [];
    }
  }

  /** The batch loop stops in its first batch when that batch fails. */
  lemma {:induction false} BatchLoopFailsAtFirst(batches: seq<seq<Json>>, bound: Option<seq<Entry>>)
    requires |batches| > 0 && EntriesAsWritten(batches[0]).Err?
    ensures BatchLoop(batches, bound) == Err(EntriesAsWritten(batches[0]).error)
  {
    if |batches| > 1 {
      BatchLoopFailsAtFirst(batches[..|batches| - 1], bound);
    } else {
      assert batches[..0] == [];
    }
  }

  /**
   * With `sqs_messages` never assigned, a record always raises and changes nothing:
   * UnboundLocalError when its document has no layouts, KeyError('body') at the first
   * item otherwise.
   */
  lemma RecordAsWrittenRaises(loc: Locals, cfg: Config, parser: Parser, rec: S3Record)
    requires loc.sqsMessages.None?
    ensures RecordAsWritten(loc, cfg, parser, rec).0 == loc
    ensures RecordAsWritten(loc, cfg, parser, rec).1.Some?
    ensures rec.bucket.Some? && rec.key.Some? ==>
      match LoadLayout(loc.world, parser, rec.bucket.value, rec.key.value)
      case Err(e) => RecordAsWritten(loc, cfg, parser, rec).1 == Some(e)
      case Ok(layout) =>
        RecordAsWritten(loc, cfg, parser, rec).1 == Some(if layout == [] then UnboundLocal("sqs_messages") else KeyError("body"))
  {
    if rec.bucket.Some? && rec.key.Some? {
      var load := LoadLayout(loc.world, parser, rec.bucket.value, rec.key.value);
      if load.Ok? && load.value != [] {
        var layout := load.value;
        var blob := GetObject(loc.world, rec.bucket.value, rec.key.value).value;
        var doc := parser(blob.doc).value;
        assert layout == LayoutItems(doc);
        LayoutItemHasIdNoBody(doc, 0);
        var batches := Batches(layout);
        BatchOfPosition(layout, 0);
        assert batches[0][0] == layout[0];
        EntriesAsWrittenFailAtFirst(batches[0]);
        BatchLoopFailsAtFirst(batches, None);
      }
    }
  }

  /** From an unassigned `sqs_messages`, a non-empty record list raises on its first record. */
  lemma {:induction false} RecordsAsWrittenRaise(loc: Locals, cfg: Config, parser: Parser, recs: seq<S3Record>)
    requires loc.sqsMessages.None?
    ensures RecordsAsWritten(loc, cfg, parser, recs).0 == loc
    ensures RecordsAsWritten(loc, cfg, parser, recs).1.Some? <==> recs != []
  {
    if recs != [] {
      var init := recs[..|recs| - 1];
      RecordsAsWrittenRaise(loc, cfg, parser, init);
      if init == [] {
        RecordAsWrittenRaises(loc, cfg, parser, recs[|recs| - 1]);
      }
    }
  }

  /**
   * As written, `process_s3_event` never sends a message and changes nothing; it returns
   * normally exactly when the event's `Records` list is present and empty.
   */
  lemma AsWrittenNeverSends(w: World, cfg: Config, parser: Parser, event: S3Event)
    ensures ProcessAsWritten(w, cfg, parser, event).0 == w
    ensures ProcessAsWritten(w, cfg, parser, event).1.None? <==> event.records == Some([])
  {
    if event.records.Some? {
      RecordsAsWrittenRaise(Locals(w, None), cfg, parser, event.records.value);
    }
  }

  // ---------------------------------------------------------------------------
  // What the intended loop does
  // ---------------------------------------------------------------------------

  /** A dict with an `id` key: what `message['id']` needs. */
  predicate HasId(j: Json)
  {
    j.JObj? && Lookup(j.fields, "id").Some?
  }

  /** The message bodies of a batch of entries. */
  function Bodies(es: seq<Entry>): (r: seq<Json>)
    ensures |r| == |es|
  {
    seq(|es|, i requires 0 <= i < |es| => es[i].body)
  }

  /**
   * A batch's entries exist exactly when every message has an id; then there is one
   * entry per message, in order, carrying the message's id and the message itself.
   */
  lemma {:induction false} EntriesIntendedKeepItems(batch: seq<Json>)
    ensures EntriesIntended(batch).Ok? <==> forall i :: 0 <= i < |batch| ==> HasId(batch[i])
    ensures EntriesIntended(batch).Ok? ==>
      && Bodies(EntriesIntended(batch).value) == batch
      && forall i :: 0 <= i < |batch| ==> EntriesIntended(batch).value[i].id == Lookup(batch[i].fields, "id").value
  {
    if batch != [] {
      var init, last := batch[..|batch| - 1], batch[|batch| - 1];
      EntriesIntendedKeepItems(init);
      assert forall i :: 0 <= i < |init| ==> init[i] == batch[i];
      assert batch == init + [last];
      var prev := EntriesIntended(init);
      if prev.Err? {
        assert EntriesIntended(batch).Err?;
      } else if EntryIntended(last).Err? {
        assert EntriesIntended(batch).Err?;
        assert !HasId(batch[|batch| - 1]);
      } else {
        var entry := EntryIntended(last).value;
        assert EntriesIntended(batch) == Ok(prev.value + [entry]);
        BodiesSnoc(prev.value, entry);
      }
    }
  }

  lemma BodiesSnoc(es: seq<Entry>, e: Entry)
    ensures Bodies(es + [e]) == Bodies(es) + [e.body]
  {
    assert forall i :: 0 <= i < |es| ==> (es + [e])[i] == es[i];
  }

  /** A run of effects that is one send per batch, in batch order, each to `queue` with the bodies of its batch. */
  ghost predicate SendsOf(sent: seq<Effect>, queue: string, batches: seq<seq<Json>>)
  {
    && |sent| == |batches|
    && forall k :: 0 <= k < |sent| ==>
         sent[k].SendBatch? && sent[k].queue == queue && Bodies(sent[k].entries) == batches[k]
  }

  /** The world after the intended loop: S3 untouched, and the log extended by exactly those sends. */
  ghost predicate SentInOrder(w: World, w': World, queue: string, batches: seq<seq<Json>>)
  {
    && w'.objects == w.objects && w'.readOnly == w.readOnly
    && |w.log| <= |w'.log| && w'.log[..|w.log|] == w.log
    && SendsOf(Appended(w, w'), queue, batches)
  }

  /** When every message has an id, the intended loop issues one send per batch, in order, and does not fail. */
  lemma {:induction false} PublishIntendedSendsEveryBatch(w: World, queue: string, batches: seq<seq<Json>>)
    requires forall k, i :: 0 <= k < |batches| && 0 <= i < |batches[k]| ==> HasId(batches[k][i])
    ensures PublishIntended(w, queue, batches).1.None?
    ensures SentInOrder(w, PublishIntended(w, queue, batches).0, queue, batches)
  {
    if batches != [] {
      var init := batches[..|batches| - 1];
      var last := batches[|batches| - 1];
      PublishIntendedSendsEveryBatch(w, queue, init);
      EntriesIntendedKeepItems(last);
      var prev := PublishIntended(w, queue, init).0;
      var es := EntriesIntended(last).value;
      var w' := PublishIntended(w, queue, batches).0;
      assert w' == SendMessageBatch(prev, queue, es);
      SentInOrderSnoc(w, prev, queue, init, es, last);
      assert batches == init + [last];
    }
  }

  /** One more send, of the next batch's bodies, extends a run of sends in batch order. */
  lemma SentInOrderSnoc(w: World, prev: World, queue: string, batches: seq<seq<Json>>, es: seq<Entry>, batch: seq<Json>)
    requires SentInOrder(w, prev, queue, batches) && Bodies(es) == batch
    ensures SentInOrder(w, SendMessageBatch(prev, queue, es), queue, batches + [batch])
  {
    var w' := SendMessageBatch(prev, queue, es);
    var sent := Appended(w, prev) + [SendBatch(queue, es)];
    assert w'.log == prev.log + [SendBatch(queue, es)];
    assert Appended(w, w') == sent;
    assert w'.log[..|w.log|] == prev.log[..|w.log|];
    forall k | 0 <= k < |sent|
      ensures sent[k].SendBatch? && sent[k].queue == queue && Bodies(sent[k].entries) == (batches + [batch])[k]
    {
      if k < |batches| {
        assert sent[k] == Appended(w, prev)[k];
      }
    }
  }

  /** The items of every batch of a flattened document have ids. */
  lemma BatchedItemsHaveIds(doc: Document)
    ensures var batches := Batches(LayoutItems(doc));
      forall k, i :: 0 <= k < |batches| && 0 <= i < |batches[k]| ==> HasId(batches[k][i])
  {
    var items := LayoutItems(doc);
    var batches := Batches(items);
    forall k, i | 0 <= k < |batches| && 0 <= i < |batches[k]| ensures HasId(batches[k][i]) {
      assert batches[k] == items[BatchSize * k .. Min(BatchSize * k + BatchSize, |items|)];
      assert batches[k][i] == items[BatchSize * k + i];
      LayoutItemHasIdNoBody(doc, BatchSize * k + i);
    }
  }

  /** The bodies of a run of sends that matches the batches, batch by batch. */
  lemma SentBodiesAreBatches(sent: seq<Effect>, queue: string, batches: seq<seq<Json>>)
    requires SendsOf(sent, queue, batches)
    ensures seq(|sent|, k requires 0 <= k < |sent| => Bodies(sent[k].entries)) == batches
  {
  }

  /**
   * The intended publish of a parsed document: every layout item goes out exactly once
   * and in document order, in sends of one to ten entries, all of them to the output queue.
   */
  lemma PublishesEveryLayoutOnce(w: World, queue: string, doc: Document)
    ensures PublishIntended(w, queue, Batches(LayoutItems(doc))).1.None?
    ensures SentInOrder(w, PublishIntended(w, queue, Batches(LayoutItems(doc))).0, queue, Batches(LayoutItems(doc)))
    ensures var sent := Appended(w, PublishIntended(w, queue, Batches(LayoutItems(doc))).0);
      && (forall k :: 0 <= k < |sent| ==> 0 < |sent[k].entries| <= BatchSize)
      && Concat(seq(|sent|, k requires 0 <= k < |sent| => Bodies(sent[k].entries))) == LayoutItems(doc)
  {
    var items := LayoutItems(doc);
    var batches := Batches(items);
    BatchedItemsHaveIds(doc);
    PublishIntendedSendsEveryBatch(w, queue, batches);
    var w' := PublishIntended(w, queue, batches).0;
    var sent := Appended(w, w');
    forall k | 0 <= k < |sent| ensures 0 < |sent[k].entries| <= BatchSize {
      assert |Bodies(sent[k].entries)| == |batches[k]|;
    }
    SentBodiesAreBatches(sent, queue, batches);
    ConcatBatches(items);
  }

  // ---------------------------------------------------------------------------
  // lambda_handler
  // ---------------------------------------------------------------------------

  /** One record inside its try block: body, Message, receiptHandle, process, delete. */
  function RecordStep(w: World, cfg: Config, parser: Parser, variant: Variant, rec: ParserRecord): StepResult
  {
    match rec.body
    case Unreadable => StepResult(w, None)
    case Wrapped(message) =>
      if message.None? || rec.receiptHandle.None? then StepResult(w, None)
      else
        var (w', failure) := Process(w, cfg, parser, variant, message.value);
        if failure.Some? then StepResult(w', None)
        else StepResult(DeleteMessage(w', cfg.inputQueue, rec.receiptHandle.value), rec.receiptHandle)
  }

  function StepFn(cfg: Config, parser: Parser, variant: Variant): (World, ParserRecord) -> StepResult
  {
    (w: World, rec: ParserRecord) => RecordStep(w, cfg, parser, variant, rec)
  }

  /** A batch send appends no delete. */
  lemma SendAppendsNoDelete(w: World, queue: string, es: seq<Entry>)
    ensures AppendsNoDelete(w, SendMessageBatch(w, queue, es))
  {
    var w' := SendMessageBatch(w, queue, es);
    assert Appended(w, w') == [SendBatch(queue, es)];
    assert Deleted([SendBatch(queue, es)]) == [] by {
      assert [SendBatch(queue, es)][..0] == [];
    }
  }

  lemma {:induction false} PublishIntendedDeletesNothing(w: World, queue: string, batches: seq<seq<Json>>)
    ensures AppendsNoDelete(w, PublishIntended(w, queue, batches).0)
  {
    if batches != [] {
      var init := batches[..|batches| - 1];
      PublishIntendedDeletesNothing(w, queue, init);
      var (prev, f) := PublishIntended(w, queue, init);
      if f.None? && EntriesIntended(batches[|batches| - 1]).Ok? {
        SendAppendsNoDelete(prev, queue, EntriesIntended(batches[|batches| - 1]).value);
        AppendsNoDeleteChain(w, prev, PublishIntended(w, queue, batches).0);
      }
    } else {
      assert Appended(w, w) == [];
    }
  }

  lemma {:induction false} RecordsIntendedDeleteNothing(w: World, cfg: Config, parser: Parser, recs: seq<S3Record>)
    ensures AppendsNoDelete(w, RecordsIntended(w, cfg, parser, recs).0)
  {
    if recs != [] {
      var init := recs[..|recs| - 1];
      RecordsIntendedDeleteNothing(w, cfg, parser, init);
      var (prev, f) := RecordsIntended(w, cfg, parser, init);
      var rec := recs[|recs| - 1];
      if f.None? && rec.bucket.Some? && rec.key.Some? && LoadLayout(prev, parser, rec.bucket.value, rec.key.value).Ok? {
        PublishIntendedDeletesNothing(prev, cfg.outputQueue, Batches(LoadLayout(prev, parser, rec.bucket.value, rec.key.value).value));
        AppendsNoDeleteChain(w, prev, RecordsIntended(w, cfg, parser, recs).0);
      }
    } else {
      assert Appended(w, w) == [];
    }
  }

  /** Processing an S3 event, either way, appends no delete. */
  lemma ProcessDeletesNothing(w: World, cfg: Config, parser: Parser, variant: Variant, event: S3Event)
    ensures AppendsNoDelete(w, Process(w, cfg, parser, variant, event).0)
  {
    if variant.AsWritten? {
      AsWrittenNeverSends(w, cfg, parser, event);
      assert Appended(w, w) == [];
    } else if event.records.Some? {
      RecordsIntendedDeleteNothing(w, cfg, parser, event.records.value);
    } else {
      assert Appended(w, w) == [];
    }
  }

  lemma RecordStepDisciplined(w: World, cfg: Config, parser: Parser, variant: Variant, rec: ParserRecord)
    ensures Disciplined(w, RecordStep(w, cfg, parser, variant, rec), cfg.inputQueue)
  {
    if rec.body.Wrapped? && rec.body.message.Some? && rec.receiptHandle.Some? {
      var (w', failure) := Process(w, cfg, parser, variant, rec.body.message.value);
      ProcessDeletesNothing(w, cfg, parser, variant, rec.body.message.value);
      DeleteLastIsDisciplined(w, w', cfg.inputQueue, if failure.None? then rec.receiptHandle else None);
    } else {
      assert Appended(w, w) == [];
    }
  }

  lemma RecordStepAcksAfterWork(cfg: Config, parser: Parser, variant: Variant)
    ensures AcksAfterWork(StepFn(cfg, parser, variant), cfg.inputQueue)
  {
    forall w: World, rec: ParserRecord ensures Disciplined(w, StepFn(cfg, parser, variant)(w, rec), cfg.inputQueue) {
      RecordStepDisciplined(w, cfg, parser, variant, rec);
    }
  }

  /**
   * `lambda_handler`: the input-queue messages deleted are exactly those of the records
   * whose processing returned normally, in record order.
   */
  lemma HandlerDeletesExactlyProcessed(w: World, cfg: Config, parser: Parser, variant: Variant, records: seq<ParserRecord>)
    ensures var r := Run(w, records, StepFn(cfg, parser, variant));
      |w.log| <= |r.0.log| && r.0.log[..|w.log|] == w.log && Deleted(Appended(w, r.0)) == r.1
  {
    RecordStepAcksAfterWork(cfg, parser, variant);
    RunDeletesExactlyAcked(w, records, StepFn(cfg, parser, variant), cfg.inputQueue);
  }

  /** SQS deletes of the given receipts on one queue, in order. */
  function DeletesOf(queue: string, receipts: seq<string>): (r: seq<Effect>)
    ensures |r| == |receipts|
  {
    seq(|receipts|, i requires 0 <= i < |receipts| => Delete(queue, receipts[i]))
  }

  /**
   * As written, a record is acknowledged exactly when its S3 event carries an empty
   * `Records` list, and the deletion of its message is then all the record does.
   */
  lemma AsWrittenStep(w: World, cfg: Config, parser: Parser, rec: ParserRecord)
    ensures var s := RecordStep(w, cfg, parser, AsWritten, rec);
      && (s.acked.Some? <==> rec.body.Wrapped? && rec.body.message.Some? && rec.receiptHandle.Some?
                             && rec.body.message.value.records == Some([]))
      && s.world == w.(log := w.log + DeletesOf(cfg.inputQueue, AckedList(s)))
  {
    if rec.body.Wrapped? && rec.body.message.Some? && rec.receiptHandle.Some? {
      AsWrittenNeverSends(w, cfg, parser, rec.body.message.value);
    }
  }

  /**
   * As written, the whole handler sends nothing and writes nothing: all it ever does is
   * delete, in record order, the messages whose S3 event has an empty `Records` list.
   */
  lemma {:induction false} AsWrittenHandlerOnlyDeletes(w: World, cfg: Config, parser: Parser, records: seq<ParserRecord>)
    ensures var r := Run(w, records, StepFn(cfg, parser, AsWritten));
      r.0 == w.(log := w.log + DeletesOf(cfg.inputQueue, r.1))
  {
    if records != [] {
      var init := records[..|records| - 1];
      AsWrittenHandlerOnlyDeletes(w, cfg, parser, init);
      var prev := Run(w, init, StepFn(cfg, parser, AsWritten));
      var s := RecordStep(prev.0, cfg, parser, AsWritten, records[|records| - 1]);
      AsWrittenStep(prev.0, cfg, parser, records[|records| - 1]);
      assert DeletesOf(cfg.inputQueue, prev.1 + AckedList(s)) == DeletesOf(cfg.inputQueue, prev.1) + DeletesOf(cfg.inputQueue, AckedList(s));
    } else {
      assert w.log + [] == w.log;
    }
  }

  // ---------------------------------------------------------------------------
  // The first exception ends each loop
  // ---------------------------------------------------------------------------

  lemma {:induction false} EntriesAsWrittenStop(batch: seq<Json>, m: nat)
    requires m <= |batch| && EntriesAsWritten(batch[..m]).Err?
    ensures EntriesAsWritten(batch) == EntriesAsWritten(batch[..m])
    decreases |batch| - m
  {
    if m < |batch| {
      assert batch[..m + 1][..m] == batch[..m];
      EntriesAsWrittenStop(batch, m + 1);
    } else {
      assert batch[..m] == batch;
    }
  }

  lemma {:induction false} BatchLoopStop(batches: seq<seq<Json>>, bound: Option<seq<Entry>>, j: nat)
    requires j <= |batches| && BatchLoop(batches[..j], bound).Err?
    ensures BatchLoop(batches, bound) == BatchLoop(batches[..j], bound)
    decreases |batches| - j
  {
    if j < |batches| {
      assert batches[..j + 1][..j] == batches[..j];
      BatchLoopStop(batches, bound, j + 1);
    } else {
      assert batches[..j] == batches;
    }
  }

  lemma {:induction false} RecordsAsWrittenStop(loc: Locals, cfg: Config, parser: Parser, recs: seq<S3Record>, i: nat)
    requires i <= |recs| && RecordsAsWritten(loc, cfg, parser, recs[..i]).1.Some?
    ensures RecordsAsWritten(loc, cfg, parser, recs) == RecordsAsWritten(loc, cfg, parser, recs[..i])
    decreases |recs| - i
  {
    if i < |recs| {
      assert recs[..i + 1][..i] == recs[..i];
      RecordsAsWrittenStop(loc, cfg, parser, recs, i + 1);
    } else {
      assert recs[..i] == recs;
    }
  }

  lemma {:induction false} EntriesIntendedStop(batch: seq<Json>, m: nat)
    requires m <= |batch| && EntriesIntended(batch[..m]).Err?
    ensures EntriesIntended(batch) == EntriesIntended(batch[..m])
    decreases |batch| - m
  {
    if m < |batch| {
      assert batch[..m + 1][..m] == batch[..m];
      EntriesIntendedStop(batch, m + 1);
    } else {
      assert batch[..m] == batch;
    }
  }

  lemma {:induction false} PublishIntendedStop(w: World, queue: string, batches: seq<seq<Json>>, j: nat)
    requires j <= |batches| && PublishIntended(w, queue, batches[..j]).1.Some?
    ensures PublishIntended(w, queue, batches) == PublishIntended(w, queue, batches[..j])
    decreases |batches| - j
  {
    if j < |batches| {
      assert batches[..j + 1][..j] == batches[..j];
      PublishIntendedStop(w, queue, batches, j + 1);
    } else {
      assert batches[..j] == batches;
    }
  }

  lemma {:induction false} RecordsIntendedStop(w: World, cfg: Config, parser: Parser, recs: seq<S3Record>, i: nat)
    requires i <= |recs| && RecordsIntended(w, cfg, parser, recs[..i]).1.Some?
    ensures RecordsIntended(w, cfg, parser, recs) == RecordsIntended(w, cfg, parser, recs[..i])
    decreases |recs| - i
  {
    if i < |recs| {
      assert recs[..i + 1][..i] == recs[..i];
      RecordsIntendedStop(w, cfg, parser, recs, i + 1);
    } else {
      assert recs[..i] == recs;
    }
  }

  /** One more record, after records that all went through, is one more `RecordIntended`. */
  lemma RecordsIntendedStep(w: World, cfg: Config, parser: Parser, recs: seq<S3Record>, i: nat)
    requires i < |recs| && RecordsIntended(w, cfg, parser, recs[..i]).1.None?
    ensures RecordsIntended(w, cfg, parser, recs[..i + 1])
         == RecordIntended(RecordsIntended(w, cfg, parser, recs[..i]).0, cfg, parser, recs[i])
  {
    assert recs[..i + 1][..i] == recs[..i];
  }

  /** One more record, after records that all went through, is one more `RecordAsWritten`. */
  lemma RecordsAsWrittenStep(loc: Locals, cfg: Config, parser: Parser, recs: seq<S3Record>, i: nat)
    requires i < |recs| && RecordsAsWritten(loc, cfg, parser, recs[..i]).1.None?
    ensures RecordsAsWritten(loc, cfg, parser, recs[..i + 1])
         == RecordAsWritten(RecordsAsWritten(loc, cfg, parser, recs[..i]).0, cfg, parser, recs[i])
  {
    assert recs[..i + 1][..i] == recs[..i];
  }

  // ---------------------------------------------------------------------------
  // The handler as the source runs it
  // ---------------------------------------------------------------------------

  /** `load_document_layout_from_s3`. */
  method LoadDocumentLayout(cloud: Cloud, parser: Parser, bucket: string, key: string)
    returns (r: Result<seq<Json>, Failure>)
    ensures r == LoadLayout(cloud.State(), parser, bucket, key)
  {
    var blob := cloud.Get(bucket, key);
    if blob.Err? {
      return Err(blob.error);
    }
    if !blob.value.JsonBody? {
      return Err(Malformed(bucket, key));
    }
    var doc := parser(blob.value.doc);
    if doc.None? {
      return Err(Foreign("textractor"));
    }
    var items := DocumentToLayoutData(doc.value);
    r := Ok(items);
  }

  /** The inner loop as written: `sqs_messages = []`, then one append per message. */
  method FillMessagesAsWritten(batch: seq<Json>) returns (r: Result<seq<Entry>, Failure>)
    ensures r == EntriesAsWritten(batch)
  {
    var sqsMessages: seq<Entry> := [];
    var m := 0;
    while m < |batch|
      invariant 0 <= m <= |batch|
      invariant EntriesAsWritten(batch[..m]) == Ok(sqsMessages)
    {
      assert batch[..m + 1][..m] == batch[..m];
      var entry := EntryAsWritten(batch[m]);
      if entry.Err? {
        EntriesAsWrittenStop(batch, m + 1);
        return Err(entry.error);
      }
      sqsMessages := sqsMessages + [entry.value];
      m := m + 1;
    }
    assert batch[..m] == batch;
    r := Ok(sqsMessages);
  }

  /** The batch loop as written: each batch rebinds `sqs_messages`; `bound` is its value before the loop. */
  method BatchLoopAsWritten(batches: seq<seq<Json>>, bound: Option<seq<Entry>>) returns (r: Result<Option<seq<Entry>>, Failure>)
    ensures r == BatchLoop(batches, bound)
  {
    var sqsMessages := bound;
    var j := 0;
    while j < |batches|
      invariant 0 <= j <= |batches|
      invariant BatchLoop(batches[..j], bound) == Ok(sqsMessages)
    {
      assert batches[..j + 1][..j] == batches[..j];
      var entries := FillMessagesAsWritten(batches[j]);
      if entries.Err? {
        BatchLoopStop(batches, bound, j + 1);
        return Err(entries.error);
      }
      sqsMessages := Some(entries.value);
      j := j + 1;
    }
    assert batches[..j] == batches;
    r := Ok(sqsMessages);
  }

  /** One S3 record as written: the batch loop, then a single send of whatever `sqs_messages` holds. */
  method ProcessRecordAsWritten(cloud: Cloud, cfg: Config, parser: Parser, bound: Option<seq<Entry>>, rec: S3Record)
    returns (sqsMessages: Option<seq<Entry>>, failure: Option<Failure>)
    modifies cloud
    ensures (Locals(cloud.State(), sqsMessages), failure) == RecordAsWritten(Locals(old(cloud.State()), bound), cfg, parser, rec)
  {
    if rec.bucket.None? { return bound, Some(KeyError("name")); }
    if rec.key.None? { return bound, Some(KeyError("key")); }
    var layout := LoadDocumentLayout(cloud, parser, rec.bucket.value, rec.key.value);
    if layout.Err? { return bound, Some(layout.error); }
    var after := BatchLoopAsWritten(Batches(layout.value), bound);
    if after.Err? { return bound, Some(after.error); }
    if after.value.None? { return bound, Some(UnboundLocal("sqs_messages")); }
    sqsMessages := after.value;
    cloud.SendBatch(cfg.outputQueue, sqsMessages.value);
    failure := None;
  }

  /** `process_s3_event` as written. */
  method ProcessS3Event(cloud: Cloud, cfg: Config, parser: Parser, event: S3Event) returns (failure: Option<Failure>)
    modifies cloud
    ensures (cloud.State(), failure) == ProcessAsWritten(old(cloud.State()), cfg, parser, event)
  {
    if event.records.None? {
      return Some(KeyError("Records"));
    }
    var records := event.records.value;
    ghost var start := Locals(cloud.State(), None);
    var sqsMessages: Option<seq<Entry>> := None;
    var i := 0;
    while i < |records|
      invariant 0 <= i <= |records|
      invariant RecordsAsWritten(start, cfg, parser, records[..i]) == (Locals(cloud.State(), sqsMessages), None)
    {
      RecordsAsWrittenStep(start, cfg, parser, records, i);
      sqsMessages, failure := ProcessRecordAsWritten(cloud, cfg, parser, sqsMessages, records[i]);
      if failure.Some? {
        RecordsAsWrittenStop(start, cfg, parser, records, i + 1);
        return;
      }
      i := i + 1;
    }
    assert records[..i] == records;
    failure := None;
  }

  /** The entries of one batch, with the item itself as the body. */
  method FillMessagesIntended(batch: seq<Json>) returns (r: Result<seq<Entry>, Failure>)
    ensures r == EntriesIntended(batch)
  {
    var sqsMessages: seq<Entry> := [];
    var m := 0;
    while m < |batch|
      invariant 0 <= m <= |batch|
      invariant EntriesIntended(batch[..m]) == Ok(sqsMessages)
    {
      assert batch[..m + 1][..m] == batch[..m];
      var entry := EntryIntended(batch[m]);
      if entry.Err? {
        EntriesIntendedStop(batch, m + 1);
        return Err(entry.error);
      }
      sqsMessages := sqsMessages + [entry.value];
      m := m + 1;
    }
    assert batch[..m] == batch;
    r := Ok(sqsMessages);
  }

  /** The batch loop with the send inside it. */
  method PublishBatches(cloud: Cloud, queue: string, batches: seq<seq<Json>>) returns (failure: Option<Failure>)
    modifies cloud
    ensures (cloud.State(), failure) == PublishIntended(old(cloud.State()), queue, batches)
  {
    ghost var w := cloud.State();
    var j := 0;
    while j < |batches|
      invariant 0 <= j <= |batches|
      invariant PublishIntended(w, queue, batches[..j]) == (cloud.State(), None)
    {
      assert batches[..j + 1][..j] == batches[..j];
      var entries := FillMessagesIntended(batches[j]);
      if entries.Err? {
        PublishIntendedStop(w, queue, batches, j + 1);
        return Some(entries.error);
      }
      cloud.SendBatch(queue, entries.value);
      j := j + 1;
    }
    assert batches[..j] == batches;
    failure := None;
  }

  /** One S3 record of the intended loop: load its layout, then publish it batch by batch. */
  method ProcessRecordIntended(cloud: Cloud, cfg: Config, parser: Parser, rec: S3Record) returns (failure: Option<Failure>)
    modifies cloud
    ensures (cloud.State(), failure) == RecordIntended(old(cloud.State()), cfg, parser, rec)
  {
    if rec.bucket.None? { return Some(KeyError("name")); }
    if rec.key.None? { return Some(KeyError("key")); }
    var layout := LoadDocumentLayout(cloud, parser, rec.bucket.value, rec.key.value);
    if layout.Err? { return Some(layout.error); }
    failure := PublishBatches(cloud, cfg.outputQueue, Batches(layout.value));
  }

  /** `process_s3_event` with the send inside the batch loop. */
  method ProcessS3EventIntended(cloud: Cloud, cfg: Config, parser: Parser, event: S3Event) returns (failure: Option<Failure>)
    modifies cloud
    ensures (cloud.State(), failure) == ProcessIntended(old(cloud.State()), cfg, parser, event)
  {
    if event.records.None? {
      return Some(KeyError("Records"));
    }
    var records := event.records.value;
    ghost var w := cloud.State();
    var i := 0;
    while i < |records|
      invariant 0 <= i <= |records|
      invariant RecordsIntended(w, cfg, parser, records[..i]) == (cloud.State(), None)
    {
      RecordsIntendedStep(w, cfg, parser, records, i);
      failure := ProcessRecordIntended(cloud, cfg, parser, records[i]);
      if failure.Some? {
        RecordsIntendedStop(w, cfg, parser, records, i + 1);
        return;
      }
      i := i + 1;
    }
    assert records[..i] == records;
    failure := None;
  }

  /** `lambda_handler`: every record in its own failure boundary; the function returns None. */
  method LambdaHandler(cloud: Cloud, cfg: Config, parser: Parser, variant: Variant, records: seq<ParserRecord>)
    returns (response: Response)
    modifies cloud
    ensures cloud.State() == Run(old(cloud.State()), records, StepFn(cfg, parser, variant)).0
    ensures response == ReturnsNone
  {
    ghost var w := cloud.State();
    var i := 0;
    while i < |records|
      invariant 0 <= i <= |records|
      invariant cloud.State() == Run(w, records[..i], StepFn(cfg, parser, variant)).0
    {
      var rec := records[i];
      assert records[..i + 1][..i] == records[..i];
      if rec.body.Wrapped? && rec.body.message.Some? && rec.receiptHandle.Some? {
        var failure;
        if variant.AsWritten? {
          failure := ProcessS3Event(cloud, cfg, parser, rec.body.message.value);
        } else {
          failure := ProcessS3EventIntended(cloud, cfg, parser, rec.body.message.value);
        }
        if failure.None? {
          cloud.Delete(cfg.inputQueue, rec.receiptHandle.value);
        }
      }
      i := i + 1;
    }
    assert records[..i] == records;
    response := ReturnsNone;
  }
}
