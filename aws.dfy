/**
 * The AWS services the Lambda handlers call, reduced to what the handlers can
 * observe: S3 is a map from (bucket, key) to an object body, and every SQS
 * delete, SQS batch send, SNS publish and S3 write is appended to one log, in
 * the order the handler issues it. Writes to a bucket in `readOnly` are refused
 * (the ClientError a `put_object` can raise).
 */
module Aws {
  import opened Wrappers
  import opened Json

  /** A rasterised page as the PDF rasteriser returns it; its pixels are not modelled. */
  datatype PageImage = PageImage(id: nat)

  /** The body of an S3 object. */
  datatype Blob = JsonBody(doc: Json) | TextBody(text: string) | WebpBody(image: PageImage)

  /** The Python exceptions the handlers raise; each handler catches them per record. */
  datatype Failure =
    | NoSuchKey(bucket: string, key: string)   // ClientError out of get_object
    | AccessDenied(bucket: string)             // ClientError out of put_object / upload_fileobj
    | Malformed(bucket: string, key: string)   // json.loads on a body that is not JSON
    | KeyError(key: string)
    | TypeError
    | ValueError                               // unpacking a split into the wrong number of names
    | UnboundLocal(name: string)
    | Foreign(library: string)                 // an exception out of PIL, pdf2image, Textract, tesseract, textractor

  /** One SQS batch entry: `{'Id': ..., 'MessageBody': json.dumps(...)}`, the body kept as the JSON value. */
  datatype Entry = Entry(id: Json, body: Json)

  datatype Effect =
    | Put(bucket: string, key: string, blob: Blob)
    | Delete(queue: string, receipt: string)
    | Publish(topic: string, message: Json)
    | SendBatch(queue: string, entries: seq<Entry>)

  datatype World = World(objects: map<(string, string), Blob>, log: seq<Effect>, readOnly: set<string>)

  /** `get_object(Bucket=bucket, Key=key)['Body']`. */
  function GetObject(w: World, bucket: string, key: string): (r: Result<Blob, Failure>)
    ensures r.Ok? <==> (bucket, key) in w.objects
    ensures r.Ok? ==> r.value == w.objects[(bucket, key)]
    ensures r.Err? ==> r.error == NoSuchKey(bucket, key)
  {
    if (bucket, key) in w.objects then Ok(w.objects[(bucket, key)]) else Err(NoSuchKey(bucket, key))
  }

  /** `put_object`: a full overwrite of one object, or AccessDenied with nothing changed. */
  function PutObject(w: World, bucket: string, key: string, blob: Blob): (r: Result<World, Failure>)
    ensures r.Ok? <==> bucket !in w.readOnly
    ensures r.Ok? ==> r.value == World(w.objects[(bucket, key) := blob], w.log + [Put(bucket, key, blob)], w.readOnly)
  {
    if bucket in w.readOnly then Err(AccessDenied(bucket))
    else Ok(World(w.objects[(bucket, key) := blob], w.log + [Put(bucket, key, blob)], w.readOnly))
  }

  /** `delete_message(QueueUrl=queue, ReceiptHandle=receipt)`. */
  function DeleteMessage(w: World, queue: string, receipt: string): (r: World)
    ensures r.objects == w.objects && r.readOnly == w.readOnly
    ensures r.log == w.log + [Delete(queue, receipt)]
  {
    w.(log := w.log + [Delete(queue, receipt)])
  }

  /** `sns.publish(TopicArn=topic, Message=json.dumps(message))`. */
  function PublishMessage(w: World, topic: string, message: Json): (r: World)
    ensures r.objects == w.objects && r.readOnly == w.readOnly
    ensures r.log == w.log + [Publish(topic, message)]
  {
    w.(log := w.log + [Publish(topic, message)])
  }

  /** `send_message_batch(QueueUrl=queue, Entries=entries)`. */
  function SendMessageBatch(w: World, queue: string, entries: seq<Entry>): (r: World)
    ensures r.objects == w.objects && r.readOnly == w.readOnly
    ensures r.log == w.log + [SendBatch(queue, entries)]
  {
    w.(log := w.log + [SendBatch(queue, entries)])
  }

  /** The receipt handles of the SQS deletes in a log, in order. */
  function Deleted(log: seq<Effect>): (r: seq<string>)
    ensures |r| <= |log|
  {
    if log == [] then []
    else Deleted(log[..|log| - 1]) + (if log[|log| - 1].Delete? then [log[|log| - 1].receipt] else [])
  }

  lemma {:induction false} DeletedAppend(a: seq<Effect>, b: seq<Effect>)
    ensures Deleted(a + b) == Deleted(a) + Deleted(b)
  {
    if b != [] {
      assert (a + b)[..|a + b| - 1] == a + b[..|b| - 1];
      DeletedAppend(a, b[..|b| - 1]);
    } else {
      assert a + b == a;
    }
  }

  /** The boto3 clients of one Lambda process, as one mutable object. */
  class Cloud {
    var objects: map<(string, string), Blob>
    var log: seq<Effect>
    const readOnly: set<string>

    function State(): World
      reads this
    {
      World(objects, log, readOnly)
    }

    constructor (objects: map<(string, string), Blob>, readOnly: set<string>)
      ensures State() == World(objects, [], readOnly)
    {
      this.objects := objects;
      this.log := [];
      this.readOnly := readOnly;
    }

    method Get(bucket: string, key: string) returns (r: Result<Blob, Failure>)
      ensures r == GetObject(State(), bucket, key)
    {
      if (bucket, key) in objects {
        r := Ok(objects[(bucket, key)]);
      } else {
        r := Err(NoSuchKey(bucket, key));
      }
    }

    method Put(bucket: string, key: string, blob: Blob) returns (r: Option<Failure>)
      modifies this
      ensures var p := PutObject(old(State()), bucket, key, blob);
        if p.Ok? then r.None? && State() == p.value else r == Some(p.error) && State() == old(State())
    {
      if bucket in readOnly {
        r := Some(AccessDenied(bucket));
      } else {
        objects := objects[(bucket, key) := blob];
        log := log + [Effect.Put(bucket, key, blob)];
        r := None;
      }
    }

    method Delete(queue: string, receipt: string)
      modifies this
      ensures State() == DeleteMessage(old(State()), queue, receipt)
    {
      log := log + [Effect.Delete(queue, receipt)];
    }

    method Publish(topic: string, message: Json)
      modifies this
      ensures State() == PublishMessage(old(State()), topic, message)
    {
      log := log + [Effect.Publish(topic, message)];
    }

    method SendBatch(queue: string, entries: seq<Entry>)
      modifies this
      ensures State() == SendMessageBatch(old(State()), queue, entries)
    {
      log := log + [Effect.SendBatch(queue, entries)];
    }
  }
}
