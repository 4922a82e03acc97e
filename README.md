# AWS-SAM-PDF-OCR in Dafny

A Dafny model of the deterministic core of the PDF-OCR pipeline's five AWS
Lambda functions, with proofs of what each one does to S3, SQS and SNS.

- **textract-event-handler** runs when a Textract job completes. For a
  `SUCCEEDED` job it lists the job's output parts and skips the
  `.s3_access_check` marker. It merges the parts into one response, whose
  `Blocks` are every part's null-stripped `Blocks` in listing order. It writes
  the result to `{JobTag}/textract.json`.
- **textract-output-parser** turns that file into layout items, each keyed by
  its page index and its layout index, and is meant to send them to a queue in
  batches of ten. As written it sends none: every S3 record raises before the
  send (see Findings and the Left out line for `LoadLayout`). The model covers
  both the code as written and the corrected publish loop.
- **render-pages** rasterises an uploaded PDF whose key must be
  `{owner}/{upload_id}/{file_name}`. It stores each page as
  `{owner}/{upload_id}/pages/{n}.webp`, with `n` counting from 1. After each
  store it publishes a message naming the page.
- **detect-page-text** and **pytesseract-text-detection** recognise the text
  of a page image. They store it beside the image as
  `{dirname}/{stem}.textract` or `{dirname}/{stem}.tesseract`.

Every handler loops over its SQS records with one failure boundary per
record. It deletes a record's message only after that record's work has
returned normally. The exception is render-pages and the two OCR handlers:
their except clause logs `s3_event` or `body`, so when the first record's body
does not parse, that local is unbound and the handler raises
(`RenderPages.HandlerOutcome`, `OcrHandler.HandlerOutcome`).

The AWS services are a `World` value:

- a map from (bucket, key) to an object body;
- one append-only log of S3 writes, SQS deletes, SQS batch sends and SNS
  publishes, in issue order;
- the set of buckets that refuse writes.

A `Cloud` class holds the `World`, and the handlers are imperative methods on
it. Each method is proved equal to a pure function of the old state, and the
properties are proved as lemmas about those functions. The foreign libraries
are function parameters: the Textract response parser (see Left out for line 27 of textract-output-parser), the PDF rasteriser,
the OCR engines, `unquote_plus` and the S3 listing. A parameter that returns
None stands for an exception out of that library.

Modules:

- `Json`: JSON values, with dicts as ordered key/value lists whose keys are distinct (`UniqueKeys`).
- `Aws`: the world, the effects, the exceptions and the `Cloud` class.
- `RecordLoop`: the per-record failure boundary shared by all handlers.
- `NullStrip`: `remove_none`.
- `TextractEventHandler`.
- `LayoutData`: `document_to_layout_data`.
- `Batching`: the chunking into groups of ten.
- `TextractOutputParser`.
- `Strings`: `str.split`, `'/'.join` and decimal digits.
- `RenderPages`.
- `PosixPath`: `posixpath.basename`, `dirname` and `splitext`.
- `OcrHandler`: the handler shared by both text-detection Lambdas.
- `DetectPageText` and `TesseractText`: those two Lambdas.

## Model

| member | source | states |
|---|---|---|
| Json.Assign | functions/textract-event-handler/lambda_function.py:82 | `d[key] = v` makes `key` map to `v`; an existing key keeps its place, a new one is appended last |
| Json.Lookup | functions/textract-event-handler/lambda_function.py:96-100 | `d[key]` finds a value exactly when the key is present, and the value it finds is one stored under that key |
| Json.AssignKeepsOthers | functions/textract-event-handler/lambda_function.py:82 | assigning one key leaves the value under every other key unchanged |
| Json.AssignKeepsUniqueKeys | functions/textract-event-handler/lambda_function.py:82 | `d[key] = v` keeps a dict's keys distinct |
| Json.LookupUnique | functions/textract-event-handler/lambda_function.py:96-100 | in a dict with distinct keys, `d[key]` yields `v` exactly when `(key, v)` is one of its items |
| Aws.GetObject | functions/textract-event-handler/lambda_function.py:26 | definition of the abstract store standing in for boto3, not a proved property: `get_object` succeeds exactly when the object exists and returns its body; otherwise it raises NoSuchKey |
| Aws.PutObject | functions/textract-event-handler/lambda_function.py:110-115 | definition of the abstract store standing in for boto3, not a proved property: `put_object` succeeds exactly when the bucket accepts writes; it then overwrites the object and logs one write, and otherwise changes nothing |
| Aws.DeleteMessage | functions/textract-event-handler/lambda_function.py:141 | definition of the abstract queue standing in for boto3, not a proved property: `delete_message` logs one delete and leaves S3 untouched |
| Aws.PublishMessage | functions/render-pages/lambda_function.py:79-82 | definition of the abstract topic standing in for boto3, not a proved property: `sns_client.publish` logs one publish and leaves S3 untouched |
| Aws.SendMessageBatch | functions/textract-output-parser/lambda_functions.py:51 | definition of the abstract queue standing in for boto3, not a proved property: `send_message_batch` logs one send with its entries and leaves S3 untouched |
| Aws.Cloud.Get | functions/textract-event-handler/lambda_function.py:26 | the imperative read returns exactly `GetObject` of the current state |
| Aws.Cloud.Put | functions/textract-event-handler/lambda_function.py:110-115 | the imperative write moves the state exactly as `PutObject` says, or raises and changes nothing |
| Aws.Cloud.Delete | functions/textract-event-handler/lambda_function.py:141 | the imperative delete appends exactly one delete effect |
| Aws.Cloud.Publish | functions/render-pages/lambda_function.py:79-82 | the imperative publish appends exactly one publish effect |
| Aws.Cloud.SendBatch | functions/textract-output-parser/lambda_functions.py:51 | the imperative batch send appends exactly one send effect |
| RecordLoop.RunDeletesExactlyAcked | functions/textract-event-handler/lambda_function.py:129-145 | when every record's step deletes its own message and only as its last effect, the whole loop only appends to the log, and the messages it deletes are exactly the acknowledged records, in order |
| NullStrip.RemoveNone | functions/textract-event-handler/lambda_function.py:48-57 | dicts stay dicts, lists stay lists, and any other value is returned unchanged |
| NullStrip.RemoveNoneItems | functions/textract-event-handler/lambda_function.py:55 | the stripped list is no longer than the list and holds no `None` element |
| NullStrip.RemoveNoneFields | functions/textract-event-handler/lambda_function.py:53 | the stripped dict has no more keys than the dict and no `None` value |
| NullStrip.RemoveNoneIsNullFree | functions/textract-event-handler/lambda_function.py:48-57 | the result holds no `None` inside any dict or list, at any depth |
| NullStrip.RemoveNoneItemsIsFilterThenMap | functions/textract-event-handler/lambda_function.py:55 | a list loses exactly its `None` elements, and the survivors keep their order and are stripped recursively |
| NullStrip.RemoveNoneFieldsIsFilterThenMap | functions/textract-event-handler/lambda_function.py:53 | a dict loses exactly its `None`-valued keys, and the survivors keep their order and are stripped recursively |
| NullStrip.RemoveNoneFieldsKeys | functions/textract-event-handler/lambda_function.py:53 | the stripped dict has exactly the non-`None` keys, in their original order |
| NullStrip.NullFreeIsFixed | functions/textract-event-handler/lambda_function.py:48-57 | a value with no `None` inside is returned unchanged |
| NullStrip.RemoveNoneIdempotent | functions/textract-event-handler/lambda_function.py:48-57 | stripping twice gives the same result as stripping once |
| NullStrip.StripExample | functions/textract-event-handler/lambda_function.py:48-57 | `[{"a":1,"b":None}, None, {"c":2}]` strips to `[{"a":1}, {"c":2}]` |
| TextractEventHandler.DataKeys | functions/textract-event-handler/lambda_function.py:73 | the keys aggregation reads are listed keys that are not access-check markers, in listing order (`DataKeysExact` gives the converse) |
| TextractEventHandler.DataKeysExact | functions/textract-event-handler/lambda_function.py:71-77 | a key is read by aggregation if and only if it is listed and is not an access-check marker, so every Textract part in the listing gets merged |
| TextractEventHandler.SentinelsIgnored | functions/textract-event-handler/lambda_function.py:71-77 | aggregating the full listing gives the same result as aggregating only its non-marker keys |
| TextractEventHandler.OnlyDataPartsAreRead | functions/textract-event-handler/lambda_function.py:71-77 | two stores that agree on the data parts give the same aggregate, so marker objects are never read |
| TextractEventHandler.NoDataPartsGivesNone | functions/textract-event-handler/lambda_function.py:60-91 | with no data parts the aggregate is `None` |
| TextractEventHandler.FailureIsFinal | functions/textract-event-handler/lambda_function.py:77-86 | once a part raises, the keys after it change nothing |
| TextractEventHandler.AggregateConcatenatesBlocks | functions/textract-event-handler/lambda_function.py:79-86 | for well-formed parts, the result is the first part with its other fields unchanged and `Blocks` set to every part's null-stripped `Blocks`, concatenated in listing order |
| TextractEventHandler.MergeDataKeys | functions/textract-event-handler/lambda_function.py:79-86 | after the first n data keys, the running output is the envelope of the first n parts |
| TextractEventHandler.FirstPartIsEnvelope | functions/textract-event-handler/lambda_function.py:79-82 | the first part becomes the output, with only its `Blocks` null-stripped |
| TextractEventHandler.LaterPartAppends | functions/textract-event-handler/lambda_function.py:84-86 | a later part appends its stripped `Blocks` to the output and changes nothing else |
| TextractEventHandler.MissingBlocksFails | functions/textract-event-handler/lambda_function.py:82-86 | a data part without `Blocks` makes aggregation raise |
| TextractEventHandler.StatusGating | functions/textract-event-handler/lambda_function.py:94-121 | without `SUCCEEDED` nothing is written, and a raise writes nothing; a `SUCCEEDED` job that completes writes exactly one object, `json.dumps` of the aggregate at `{JobTag}/textract.json` in the metadata bucket |
| TextractEventHandler.ReprocessingIsIdempotent | functions/textract-event-handler/lambda_function.py:102-115 | for a listing that returns only keys under the requested prefix, and a result key outside the job's parts prefix, handling the same `SUCCEEDED` message again on the store the first run left stores the same value again at the same key, since the write is a full overwrite |
| TextractEventHandler.HandledMessageDeletesNothing | functions/textract-event-handler/lambda_function.py:94-121 | `handle_record_message` only appends to the log and never deletes a message |
| TextractEventHandler.RecordStepDisciplined | functions/textract-event-handler/lambda_function.py:131-145 | a record's step deletes at most its own message, and only as its last effect after its work |
| TextractEventHandler.RecordStepAcksAfterWork | functions/textract-event-handler/lambda_function.py:131-145 | every step follows that discipline, whatever the state and the record |
| TextractEventHandler.HandlerDeletesExactlyHandled | functions/textract-event-handler/lambda_function.py:125-150 | the handler only appends to the log, and the messages it deletes are exactly those of records handled without exception, in order |
| TextractEventHandler.AggregateTextractParts | functions/textract-event-handler/lambda_function.py:60-91 | the imperative fold equals `Aggregate`, reads no marker key, and reads exactly the data keys when it completes |
| TextractEventHandler.MergeObject | functions/textract-event-handler/lambda_function.py:77-86 | reading and merging one data key equals `AddKey` |
| TextractEventHandler.HandleRecordMessage | functions/textract-event-handler/lambda_function.py:94-121 | the imperative handler moves the state exactly as `HandledMessage` says |
| TextractEventHandler.LambdaHandler | functions/textract-event-handler/lambda_function.py:125-150 | the record loop moves the state exactly as the per-record run says, and returns `{"status":200,"body":"ok"}` |
| LayoutData.ItemPageField | functions/textract-output-parser/lambda_functions.py:106 | an item's `page` is the page index it was built for |
| LayoutData.ItemOrderField | functions/textract-output-parser/lambda_functions.py:107 | an item's `order` is the layout index it was built for |
| LayoutData.ItemIdField | functions/textract-output-parser/lambda_functions.py:105 | the `id` is copied from the layout |
| LayoutData.ItemTypeField | functions/textract-output-parser/lambda_functions.py:95 | the `type` is copied from the layout |
| LayoutData.ItemBoxField | functions/textract-output-parser/lambda_functions.py:96-101 | `bbox` holds the layout's x, y, width and height |
| LayoutData.ItemConfidenceField | functions/textract-output-parser/lambda_functions.py:102 | `confidence` is copied from the layout |
| LayoutData.ItemMetadataField | functions/textract-output-parser/lambda_functions.py:103 | `metadata` is copied from the layout |
| LayoutData.ItemHasNoBody | functions/textract-output-parser/lambda_functions.py:94-108 | an item has no `body` key |
| LayoutData.ItemKey | functions/textract-output-parser/lambda_functions.py:106-107 | an item's (page, order) key comes from its position only, never from the layout's content |
| LayoutData.LayoutItemsLength | functions/textract-output-parser/lambda_functions.py:86-110 | there are as many items as layouts over all pages |
| LayoutData.ItemPosition | functions/textract-output-parser/lambda_functions.py:88-110 | layout o of page p becomes the item at position (layouts before page p) + o, built with page p and order o |
| LayoutData.Locate | functions/textract-output-parser/lambda_functions.py:88-110 | every item is the item of exactly such a (page, layout) position |
| LayoutData.KeysStrictlyIncrease | functions/textract-output-parser/lambda_functions.py:86-110 | items appear in strictly increasing lexicographic (page, order) |
| LayoutData.DocumentToLayoutData | functions/textract-output-parser/lambda_functions.py:84-113 | the nested append loops produce exactly `LayoutItems(doc)` |
| Batching.Batches | functions/textract-output-parser/lambda_functions.py:40 | there are ceil(n/10) batches, each of 1 to 10 items, and all but the last have exactly 10 |
| Batching.BatchesUnfold | functions/textract-output-parser/lambda_functions.py:40 | with more than ten items, the batches are the first ten followed by the batches of the rest |
| Batching.ConcatBatches | functions/textract-output-parser/lambda_functions.py:40 | concatenating the batches in order gives back the list |
| Batching.BatchOfPosition | functions/textract-output-parser/lambda_functions.py:40 | item i is element i mod 10 of batch i div 10 |
| Batching.BatchExamples | functions/textract-output-parser/lambda_functions.py:40 | 0 items give no batch, and 23 items give batches of 10, 10 and 3 |
| TextractOutputParser.LoadDocumentLayout | functions/textract-output-parser/lambda_functions.py:21-27 | fetching, decoding, parsing and flattening equals `LoadLayout`: NoSuchKey, a decode error or a parser exception, or the layout items |
| TextractOutputParser.LayoutItemHasIdNoBody | functions/textract-output-parser/lambda_functions.py:46-48 | every layout item is a dict with an `id` and without a `body` |
| TextractOutputParser.EntriesAsWrittenFailAtFirst | functions/textract-output-parser/lambda_functions.py:44-49 | as written, filling a non-empty batch of items raises on its first item |
| TextractOutputParser.BatchLoopFailsAtFirst | functions/textract-output-parser/lambda_functions.py:43-49 | as written, the batch loop over any non-empty batches of items raises in the first batch |
| TextractOutputParser.RecordAsWrittenRaises | functions/textract-output-parser/lambda_functions.py:33-51 | as written, every S3 record raises without a send: the lookup's or the load's error, `UnboundLocalError` for an empty layout, otherwise `KeyError('body')` |
| TextractOutputParser.RecordsAsWrittenRaise | functions/textract-output-parser/lambda_functions.py:33-51 | as written, the record loop raises exactly when it has a record and changes nothing |
| TextractOutputParser.AsWrittenNeverSends | functions/textract-output-parser/lambda_functions.py:31-51 | as written, `process_s3_event` never changes the world, and it returns normally only for an empty `Records` list |
| TextractOutputParser.EntriesIntendedKeepItems | functions/textract-output-parser/lambda_functions.py:44-49 | the intended entries exist exactly when every item has an id; they are one per item, in order, each carrying the item's id and the item itself |
| TextractOutputParser.PublishIntendedSendsEveryBatch | functions/textract-output-parser/lambda_functions.py:42-51 | with ids on every item, the intended loop completes with one send per batch, in batch order, to the output queue, and touches nothing else |
| TextractOutputParser.BatchedItemsHaveIds | functions/textract-output-parser/lambda_functions.py:40 | every item of every batch of a document's layout has an id |
| TextractOutputParser.SentBodiesAreBatches | functions/textract-output-parser/lambda_functions.py:40-51 | the bodies of the sends, in order, are the batches |
| TextractOutputParser.PublishesEveryLayoutOnce | functions/textract-output-parser/lambda_functions.py:38-51 | the intended publish of a parsed document completes; each send carries 1 to 10 entries, and the sent bodies, concatenated in order, are exactly the document's layout items |
| TextractOutputParser.PublishIntendedDeletesNothing | functions/textract-output-parser/lambda_functions.py:42-51 | publishing only appends sends and never deletes |
| TextractOutputParser.RecordsIntendedDeleteNothing | functions/textract-output-parser/lambda_functions.py:33-51 | the intended record loop never deletes |
| TextractOutputParser.ProcessDeletesNothing | functions/textract-output-parser/lambda_functions.py:31-51 | neither version of `process_s3_event` deletes a message |
| TextractOutputParser.RecordStepDisciplined | functions/textract-output-parser/lambda_functions.py:68-81 | a record's step deletes at most its own message, last, after `process_s3_event` returned |
| TextractOutputParser.RecordStepAcksAfterWork | functions/textract-output-parser/lambda_functions.py:68-81 | every step follows that discipline |
| TextractOutputParser.HandlerDeletesExactlyProcessed | functions/textract-output-parser/lambda_functions.py:62-81 | the handler only appends, and the messages it deletes are exactly those whose S3 event was processed without exception |
| TextractOutputParser.AsWrittenStep | functions/textract-output-parser/lambda_functions.py:68-81 | as written, a record is acknowledged exactly when it parses, has a receipt handle and its event's `Records` is empty, and the delete is its only effect |
| TextractOutputParser.AsWrittenHandlerOnlyDeletes | functions/textract-output-parser/lambda_functions.py:62-81 | as written, the whole handler's only effects are the deletes of the acknowledged messages |
| TextractOutputParser.FillMessagesAsWritten | functions/textract-output-parser/lambda_functions.py:44-49 | the inner append loop equals `EntriesAsWritten` |
| TextractOutputParser.BatchLoopAsWritten | functions/textract-output-parser/lambda_functions.py:43-49 | the batch loop, which rebinds `sqs_messages` for each batch, equals `BatchLoop` |
| TextractOutputParser.ProcessRecordAsWritten | functions/textract-output-parser/lambda_functions.py:35-51 | one S3 record as written moves the state and `sqs_messages` exactly as `RecordAsWritten` says |
| TextractOutputParser.ProcessS3Event | functions/textract-output-parser/lambda_functions.py:31-51 | `process_s3_event` as written moves the state exactly as `ProcessAsWritten` says |
| TextractOutputParser.FillMessagesIntended | functions/textract-output-parser/lambda_functions.py:44-49 | the corrected append loop equals `EntriesIntended` |
| TextractOutputParser.PublishBatches | functions/textract-output-parser/lambda_functions.py:42-51 | the corrected batch loop, with the send inside it, equals `PublishIntended` |
| TextractOutputParser.ProcessRecordIntended | functions/textract-output-parser/lambda_functions.py:35-51 | one S3 record, corrected, equals `RecordIntended` |
| TextractOutputParser.ProcessS3EventIntended | functions/textract-output-parser/lambda_functions.py:31-51 | the corrected `process_s3_event` equals `ProcessIntended` |
| TextractOutputParser.LambdaHandler | functions/textract-output-parser/lambda_functions.py:62-81 | for the code as written and for the corrected publish loop alike, the record loop moves the state exactly as the per-record run says, and the function returns None |
| Strings.SplitCount | functions/render-pages/lambda_function.py:56 | `split('/')` yields one more piece than there are slashes |
| Strings.Split | functions/render-pages/lambda_function.py:56 | `str.split` always yields at least one piece |
| Strings.SplitPiecesHaveNoSeparator | functions/render-pages/lambda_function.py:56 | no piece of the split contains the separator |
| Strings.JoinSplit | functions/render-pages/lambda_function.py:56 | splitting a join of separator-free pieces gives the pieces back |
| Strings.SplitJoin | functions/render-pages/lambda_function.py:56 | joining the pieces of a split gives the string back |
| Strings.ThreePieces | functions/render-pages/lambda_function.py:56 | the split has exactly three pieces if and only if the key has exactly two slashes |
| Strings.NatToString | functions/render-pages/lambda_function.py:65 | `str(n)` is a non-empty string of decimal digits |
| Strings.ParseNatToString | functions/render-pages/lambda_function.py:65 | `int(str(n)) == n` |
| Strings.NatToStringInjective | functions/render-pages/lambda_function.py:65 | different numbers have different decimal strings |
| RenderPages.ParseKeyRoundTrip | functions/render-pages/lambda_function.py:55-56 | the unpacking succeeds exactly for keys with two slashes, and then the three names rejoin to the key; slash-free names survive the join and the split |
| RenderPages.PageKeysDistinct | functions/render-pages/lambda_function.py:63-65 | two pages of one upload get the same key if and only if they have the same number |
| RenderPages.PageKeyPieces | functions/render-pages/lambda_function.py:65 | a page key is exactly the segments owner, upload id, `pages` and `{n}.webp` |
| RenderPages.PageKeyIsNotUploadKey | functions/render-pages/lambda_function.py:55-65 | no page key overwrites the uploaded PDF's key |
| RenderPages.LoadParams | functions/render-pages/lambda_function.py:25-29 | the get reads the configured bucket at the key, and passes `VersionId` exactly when the version is present and non-empty |
| RenderPages.PageMessageFields | functions/render-pages/lambda_function.py:69-77 | the message names the page key, the configured `BUCKET_NAME` rather than the event's bucket, the version as given (`null` when absent) and the page number |
| RenderPages.PageMessageUpload | functions/render-pages/lambda_function.py:74-76 | the message carries the owner, upload id and file name the object key was split into |
| RenderPages.RenderPageWritable | functions/render-pages/lambda_function.py:65-82 | into a writable bucket, one page is stored under its key and then announced, and nothing else happens |
| RenderPages.SavesBeforePublishing | functions/render-pages/lambda_function.py:63-82 | with a writable bucket the page loop completes, and its effects are, page by page in rasterisation order, the save of page i+1 and then its announcement |
| RenderPages.EveryPageStored | functions/render-pages/lambda_function.py:63-67 | after the page loop, page i is stored as `{owner}/{upload_id}/pages/{i+1}.webp` |
| RenderPages.RefusedSavePublishesNothing | functions/render-pages/lambda_function.py:63-67 | when the bucket refuses writes, the first save raises and nothing is published |
| RenderPages.RenderAllDeletesNothing | functions/render-pages/lambda_function.py:63-82 | the page loop never deletes a message |
| RenderPages.ProcessAllDeletesNothing | functions/render-pages/lambda_function.py:96-97 | processing an S3 event's records never deletes a message |
| RenderPages.RecordStepDisciplined | functions/render-pages/lambda_function.py:93-107 | a record's step deletes at most its own message, last, after every S3 record in its body was processed |
| RenderPages.HandlerOutcome | functions/render-pages/lambda_function.py:89-112 | the handler raises exactly when the first record's body does not parse, and then changes nothing; otherwise it returns 200 and deletes exactly the fully processed messages |
| RenderPages.LoadPdfAsImages | functions/render-pages/lambda_function.py:25-31 | the imperative load equals `LoadPages` |
| RenderPages.SaveAndPublishPages | functions/render-pages/lambda_function.py:63-84 | the imperative page loop equals `RenderAll` |
| RenderPages.ProcessPdfRecord | functions/render-pages/lambda_function.py:53-86 | the imperative `process_pdf` equals `ProcessPdf` |
| RenderPages.ProcessS3Records | functions/render-pages/lambda_function.py:96-97 | the loop over an event's records equals `ProcessAll` |
| RenderPages.LambdaHandler | functions/render-pages/lambda_function.py:89-112 | the imperative handler's state and response equal `Handler` |
| PosixPath.Basename | functions/detect-page-text/lambda_function.py:71 | `basename` contains no slash |
| PosixPath.SplitExtParts | functions/detect-page-text/lambda_function.py:71 | `splitext` cuts the name in two: root + ext is the name, and ext is empty or a dot followed by no dot and no slash |
| PosixPath.StemOfExtension | functions/detect-page-text/lambda_function.py:71 | only the last extension is removed: the stem of `s + ".ext"` is `s` when `s` is not all dots |
| PosixPath.StemWithoutDot | functions/detect-page-text/lambda_function.py:71 | a dot-less name is its own stem |
| PosixPath.StemOfDotFile | functions/detect-page-text/lambda_function.py:71 | a name whose only dot leads it is its own stem |
| PosixPath.DirnameBasename | functions/detect-page-text/lambda_function.py:71 | for `d/f` with f slash-free and d not ending in a slash, `dirname` is d and `basename` is f |
| PosixPath.DirnameOfPlain | functions/detect-page-text/lambda_function.py:71 | a slash-free key has an empty `dirname` and is its own `basename` |
| OcrHandler.OutputKeySameDirectory | functions/detect-page-text/lambda_function.py:71 | the text file lands in the image's directory, named after the image's stem plus the extension |
| OcrHandler.OutputKeyOfTopLevel | functions/detect-page-text/lambda_function.py:71 | a key without a directory gets a leading slash: `/{stem}{ext}` |
| OcrHandler.OutputKeyOfPage | functions/detect-page-text/lambda_function.py:71 | the text of `o/u/pages/n.webp` goes to `o/u/pages/n{ext}` |
| OcrHandler.OutputKeyIsNotPageKey | functions/detect-page-text/lambda_function.py:71 | the text file never overwrites the page image |
| OcrHandler.HandledPayloadOutcome | functions/detect-page-text/lambda_function.py:66-72 | a payload is handled exactly when both keys are present, the image exists and is recognised, and the payload's bucket accepts writes; the only change is then the text stored in the payload's bucket, and a failure changes nothing |
| OcrHandler.AckedAfterSave | functions/detect-page-text/lambda_function.py:70-77 | an acknowledged record did exactly two things: it saved the text beside the image, then deleted its message |
| OcrHandler.RecordStepDisciplined | functions/detect-page-text/lambda_function.py:64-82 | a record's step deletes at most its own message, last, after the save |
| OcrHandler.HandlerOutcome | functions/detect-page-text/lambda_function.py:60-87 | the handler raises exactly when the first record's body does not parse (the except clause logs the unbound `body`), and then changes nothing; otherwise it returns 200 and deletes exactly the saved records' messages |
| OcrHandler.ExtractTextFromS3Image | functions/detect-page-text/lambda_function.py:45-49 | fetching and recognising equals `ExtractText` |
| OcrHandler.HandlePayload | functions/detect-page-text/lambda_function.py:66-72 | the try block up to the delete equals `HandledPayload` |
| OcrHandler.LambdaHandler | functions/detect-page-text/lambda_function.py:60-87 | the imperative handler's state and response equal `Handler` |
| DetectPageText.TextBesidePage | functions/detect-page-text/lambda_function.py:71 | the text of page n is stored as `{owner}/{upload}/pages/{n}.textract`, never over the page image |
| DetectPageText.LambdaHandler | functions/detect-page-text/lambda_function.py:60-87 | the handler with `.textract` and Textract as the engine equals the shared `Handler` |
| TesseractText.TextBesidePage | functions/pytesseract-text-detection/lambda_function.py:53 | the text of page n is stored as `{owner}/{upload}/pages/{n}.tesseract`, never over the page image and never over the Textract text of the same page |
| TesseractText.LambdaHandler | functions/pytesseract-text-detection/lambda_function.py:42-69 | the handler with `.tesseract` and tesseract as the engine equals the shared `Handler` |

## Left out

- The boto3 clients are replaced by the `World` value. Reads can fail only with NoSuchKey, and writes only on a read-only bucket. Throttling, network errors and the other ClientErrors are not modelled.
- Object versions are not modelled. `RenderPages.LoadParams` records the `VersionId` it would pass, but a bucket holds one body per key.
- The `list_objects_v2` paginator is a function from prefix to the flat list of keys across all result pages, in listing order. The "no objects" log line for an empty page is not modelled.
- TextractEventHandler.ReprocessingIsIdempotent: listings do not reflect the writes the handler makes, so the lemma assumes an unchanged listing. It asks that the lister return only keys under their prefix (`ListsUnderPrefix`) and that `{JobTag}/textract.json` lie outside `textract_output/{JobId}/`. When the result key does lie under that prefix, a real second listing would return it and the second run would merge it as a part; that case is not covered.
- The foreign libraries are opaque function parameters that return a value or raise:
  - `pdf2image.convert_from_bytes`;
  - PIL's `Image.open` and `image.save`;
  - Textract's `analyze_document`;
  - `pytesseract.image_to_string`.

  A WEBP encoding failure in `save_rendered_page_to_bucket` is not modelled separately from a refused upload.
- TextractOutputParser.LoadLayout: line 27 of textract-output-parser calls `response_parser(...)`, and `response_parser` is the module imported from `textractor.parsers`, so as written that call raises TypeError for every record that reaches it. The model takes the parser as a parameter `Json -> Option<Document>` instead, as if line 27 called the module's `parse`, so the records that reach line 27 can get past it.
- LayoutData.Layout: `layout.to_markdown()` (textract-output-parser line 104) is the plain string field `content`, so a failure of `to_markdown` inside `document_to_layout_data` is not modelled.
- `unquote_plus` is a parameter. URL decoding itself is not modelled.
- `json.loads` and `json.dumps` are not modelled at the byte level. A body that does not parse is `Unreadable`, and an object is stored as its JSON value.
- Floating-point bbox coordinates and `confidence` are opaque reals that are copied through.
- The `Failed` check after `send_message_batch` (textract-output-parser lines 54-59) only prints. The batch-send response is therefore not modelled.
- `TextractEventHandler.MergePart` treats `+=` on `Blocks` values that are not both lists as a TypeError. Python would also accept other operand pairs, such as two strings.
- A `KeyError` raised by a nested lookup is modelled by the name of the key the handler asks for. Examples are `record['s3']['bucket']['name']` and `location['S3ObjectName']`. An intermediate dict that is missing raises a KeyError under its own name in Python.
- A missing `event['Records']` in the Lambda event makes every handler raise before its loop. The models take the records as a list.
- Logging, `print`, environment variables and client construction are not modelled. Lambda concurrency and SQS redelivery are also left out: each handler is one sequential pass over its records.

## Findings

| source | as written | input that shows it | evidently intended | confidence | as-written member | corrected member |
|---|---|---|---|---|---|---|
| functions/textract-output-parser/lambda_functions.py:43-51 | The entries read `message['body']`, which no layout item has. The single `send_message_batch` sits after the batch loop. | Both paths begin once line 27 returns a document (as written it calls the `response_parser` module itself and raises TypeError first; see Left out). Then any S3 record whose document has at least one layout raises `KeyError('body')` on its first item, and a document with no layouts reaches the send with `sqs_messages` unbound and raises `UnboundLocalError`. Nothing is ever sent, and no message with a non-empty `Records` is ever deleted. | One send per batch inside the loop, with the item itself as the message body, so that every layout item goes out exactly once, in batches of at most ten. | not executed | TextractOutputParser.AsWrittenNeverSends | TextractOutputParser.PublishesEveryLayoutOnce |
