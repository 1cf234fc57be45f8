/**
 * The ingestion handler: checks an upload request, stores the decoded image
 * under its filename and asks the thumbnail worker, through the queue, to
 * process it.
 *
 * The S3 bucket is a map from key to bytes, the SQS queue a sequence of
 * message bodies. What the code cannot see is an oracle parameter: the
 * base64 decoder, whether `head_object` raised for a reason other than a
 * missing key, whether `put_object` raised, and whether `send_message`
 * succeeded.
 */
module UploadImage {
  import opened Wrappers
  import opened Responses

  newtype byte = x: int | 0 <= x < 256
  type Bytes = seq<byte>

  const BucketName := "your-bucket-name"
  const QueueUrl := "your_sqs_queue_url"
  const UploadedBody := "Image uploaded successfully!"

  // ---------------------------------------------------------------------
  // Key validity
  // ---------------------------------------------------------------------

  /** ASCII letters and digits: the ASCII part of Python's `str.isalnum`. */
  predicate IsAlnum(c: char) {
    ('a' <= c <= 'z') || ('A' <= c <= 'Z') || ('0' <= c <= '9')
  }

  /** A character allowed in an object key. */
  predicate IsKeyChar(c: char) {
    IsAlnum(c) || c == '-' || c == '_'
  }

  /** The `all(...)` generator: scans the key from the front and stops at the first bad character. */
  function AllKeyChars(s: string): (r: bool)
    ensures r <==> forall i :: 0 <= i < |s| ==> IsKeyChar(s[i])
  {
    if s == [] then true else IsKeyChar(s[0]) && AllKeyChars(s[1..])
  }

  /** `is_valid_object_key`: non-empty and built only from key characters. */
  function IsValidObjectKey(key: string): (r: bool)
    ensures r <==> |key| > 0 && forall i :: 0 <= i < |key| ==> IsKeyChar(key[i])
    ensures r ==> '/' !in key && '"' !in key && '{' !in key
  {
    |key| > 0 && AllKeyChars(key)
  }

  lemma ValidKeyExamples()
    ensures IsValidObjectKey("img-01_A")
    ensures !IsValidObjectKey("")
    ensures !IsValidObjectKey("img/01")
  {
  }

  // ---------------------------------------------------------------------
  // The queue message
  // ---------------------------------------------------------------------

  /** JSON string escaping of the two characters that always need it. */
  function EscapeJson(s: string): (r: string)
    ensures |r| >= |s|
  {
    if s == [] then []
    else (if s[0] == '"' || s[0] == '\\' then ['\\', s[0]] else [s[0]]) + EscapeJson(s[1..])
  }

  /** A string of key characters is left untouched by escaping. */
  lemma {:induction false} EscapeKeyChars(s: string)
    requires forall i :: 0 <= i < |s| ==> IsKeyChar(s[i])
    ensures EscapeJson(s) == s
  {
    if s != [] {
      EscapeKeyChars(s[1..]);
    }
  }

  /**
   * `json.dumps({'file_path': file_path})`; `MessageBodyOfValidKey` gives
   * its exact text for every key that passes the key check.
   */
  function MessageBody(filePath: string): (r: string)
    ensures |r| > |filePath| && r[0] == '{'
  {
    "{\"file_path\": \"" + EscapeJson(filePath) + "\"}"
  }

  /** A valid key is carried verbatim between the quotes of the message. */
  lemma MessageBodyOfValidKey(key: string)
    requires IsValidObjectKey(key)
    ensures MessageBody(key) == "{\"file_path\": \"" + key + "\"}"
  {
    EscapeKeyChars(key);
  }

  // ---------------------------------------------------------------------
  // The ordered admission checks
  // ---------------------------------------------------------------------

  /** The request dictionary: each of its two fields may be missing. */
  datatype UploadEvent = UploadEvent(body: Option<string>, filename: Option<string>)

  /** Why a request was turned away; the handler logs it and answers 500. */
  datatype Rejection = MissingField | UndecodableBody | EmptyFilename | DuplicateKey | InvalidKey

  /** What an admitted request writes. */
  datatype StoredImage = StoredImage(key: string, content: Bytes)

  /**
   * `is_filename_present`: `head_object` succeeds only for a key that exists,
   * and every exception it raises (a missing key or any other failure,
   * `headFails`) reads as "absent".
   */
  predicate Present(bucket: map<string, Bytes>, key: string, headFails: bool)
    // a key reads as present only if it exists
    ensures Present(bucket, key, headFails) ==> key in bucket
    // an existing key reads as absent only when `head_object` failed
    ensures key in bucket && !Present(bucket, key, headFails) ==> headFails
  {
    key in bucket && !headFails
  }

  /** The checks of `upload_image_and_enqueue_thumbnail`, in the order the code runs them. */
  function Admission(event: UploadEvent, decode: string -> Option<Bytes>,
                     bucket: map<string, Bytes>, headFails: bool): (r: Result<StoredImage, Rejection>)
    // admitted exactly when every check passes
    ensures r.Ok? <==>
      && event.body.Some? && event.filename.Some?
      && decode(event.body.value).Some?
      && event.filename.value != ""
      && !Present(bucket, event.filename.value, headFails)
      && IsValidObjectKey(event.filename.value)
    // what is written is the request's filename and decoded body
    ensures r.Ok? ==> (Some(r.value.key) == event.filename
                       && Some(r.value.content) == decode(event.body.value))
    // an existing key is only overwritten when the existence check itself failed
    ensures r.Ok? ==> r.value.key in bucket ==> headFails
    // the duplicate check comes before the validity check
    ensures r == Err(DuplicateKey) <==>
      && event.body.Some? && event.filename.Some?
      && decode(event.body.value).Some?
      && event.filename.value != ""
      && Present(bucket, event.filename.value, headFails)
    ensures r == Err(InvalidKey) ==>
      event.filename.Some? && !Present(bucket, event.filename.value, headFails)
    // a body that does not decode is reported before an empty filename
    ensures r == Err(EmptyFilename) ==> event.body.Some? && decode(event.body.value).Some?
  {
    if event.body.None? || event.filename.None? then Err(MissingField)
    else if decode(event.body.value).None? then Err(UndecodableBody)
    else if event.filename.value == "" then Err(EmptyFilename)
    else if Present(bucket, event.filename.value, headFails) then Err(DuplicateKey)
    else if !IsValidObjectKey(event.filename.value) then Err(InvalidKey)
    else Ok(StoredImage(event.filename.value, decode(event.body.value).value))
  }

  /** A key that is both present and invalid is reported as a duplicate. */
  lemma DuplicateBeforeInvalid(event: UploadEvent, decode: string -> Option<Bytes>,
                               bucket: map<string, Bytes>, headFails: bool)
    requires event.body.Some? && event.filename.Some? && decode(event.body.value).Some?
    requires event.filename.value != ""
    requires event.filename.value in bucket && !headFails
    requires !IsValidObjectKey(event.filename.value)
    ensures Admission(event, decode, bucket, headFails) == Err(DuplicateKey)
  {
  }

  // ---------------------------------------------------------------------
  // The services the handler drives
  // ---------------------------------------------------------------------

  /** A side effect on shared storage, in the order it happened. */
  datatype Effect = Put(key: string, content: Bytes) | Publish(body: string)

  /** The bucket and the queue the handler writes to. */
  class Cloud {
    var bucket: map<string, Bytes>
    var queue: seq<string>
    /** Every write to the bucket or the queue, oldest first. */
    ghost var effects: seq<Effect>

    constructor (initial: map<string, Bytes>)
      ensures bucket == initial && queue == [] && effects == []
    {
      bucket := initial;
      queue := [];
      effects := [];
    }

    /** `is_filename_present` */
    method IsFilenamePresent(filename: string, headFails: bool) returns (present: bool)
      ensures present == Present(bucket, filename, headFails)
    {
      present := Present(bucket, filename, headFails);
    }

    /**
     * `s3.put_object`: stores `content` under `key`, replacing any previous
     * object. When the call raises (`putOk` false) nothing is stored.
     */
    method PutObject(key: string, content: Bytes, putOk: bool) returns (ok: bool)
      modifies this
      ensures ok == putOk
      ensures bucket == if putOk then old(bucket)[key := content] else old(bucket)
      ensures effects == old(effects) + if putOk then [Put(key, content)] else []
      ensures queue == old(queue)
    {
      ok := putOk;
      if putOk {
        bucket := bucket[key := content];
        effects := effects + [Put(key, content)];
      }
    }

    /**
     * `enqueue_thumbnail_request`: publishes `{"file_path": filePath}`. The
     * response stands for the `send_message` reply (here the position of the
     * message in the queue); a failed send yields `None`.
     */
    method EnqueueThumbnailRequest(filePath: string, sendOk: bool) returns (response: Option<nat>)
      modifies this
      ensures response.Some? <==> sendOk
      ensures sendOk ==> (response.value == |old(queue)|
                          && queue == old(queue) + [MessageBody(filePath)]
                          && effects == old(effects) + [Publish(MessageBody(filePath))])
      ensures !sendOk ==> queue == old(queue) && effects == old(effects)
      ensures bucket == old(bucket)
    {
      if sendOk {
        var body := MessageBody(filePath);
        response := Some(|queue|);
        queue := queue + [body];
        effects := effects + [Publish(body)];
      } else {
        response := None;
      }
    }

    /** `upload_image_and_enqueue_thumbnail` */
    method UploadImageAndEnqueueThumbnail(event: UploadEvent, decode: string -> Option<Bytes>,
                                          headFails: bool, putOk: bool, sendOk: bool)
      returns (resp: Response)
      modifies this
      // a rejection, or a put that raises, writes nothing
      ensures Admission(event, decode, old(bucket), headFails).Err? || !putOk ==>
        resp == ServerError && bucket == old(bucket) && queue == old(queue) && effects == old(effects)
      // an admitted request puts once, then publishes once; a failed publish keeps the put
      ensures Admission(event, decode, old(bucket), headFails).Ok? && putOk ==>
        var u := Admission(event, decode, old(bucket), headFails).value;
        && bucket == old(bucket)[u.key := u.content]
        && queue == old(queue) + (if sendOk then [MessageBody(u.key)] else [])
        && effects == old(effects) + [Put(u.key, u.content)]
                                   + (if sendOk then [Publish(MessageBody(u.key))] else [])
        && resp == (if sendOk then Response(200, UploadedBody) else ServerError)
      ensures resp.statusCode == 200 <==>
        Admission(event, decode, old(bucket), headFails).Ok? && putOk && sendOk
      ensures IsHandlerStatus(resp)
    {
      if event.body.None? || event.filename.None? {
        return ServerError;
      }
      var fileContent := decode(event.body.value);
      if fileContent.None? {
        return ServerError;
      }
      if event.filename.value == "" {
        return ServerError;
      }
      var filename := event.filename.value;
      var present := IsFilenamePresent(filename, headFails);
      if present {
        return ServerError;
      }
      if !IsValidObjectKey(filename) {
        return ServerError;
      }
      var stored := PutObject(filename, fileContent.value, putOk);
      if !stored {
        return ServerError;
      }
      var response := EnqueueThumbnailRequest(filename, sendOk);
      if response.None? {
        return ServerError;
      }
      return Response(200, UploadedBody);
    }

    /** `lambda_handler`: the inner handler already catches everything, so this only forwards. */
    method LambdaHandler(event: UploadEvent, decode: string -> Option<Bytes>,
                         headFails: bool, putOk: bool, sendOk: bool) returns (resp: Response)
      modifies this
      ensures Admission(event, decode, old(bucket), headFails).Err? || !putOk ==>
        resp == ServerError && bucket == old(bucket) && queue == old(queue) && effects == old(effects)
      ensures Admission(event, decode, old(bucket), headFails).Ok? && putOk ==>
        var u := Admission(event, decode, old(bucket), headFails).value;
        && bucket == old(bucket)[u.key := u.content]
        && queue == old(queue) + (if sendOk then [MessageBody(u.key)] else [])
        && effects == old(effects) + [Put(u.key, u.content)]
                                   + (if sendOk then [Publish(MessageBody(u.key))] else [])
        && resp == (if sendOk then Response(200, UploadedBody) else ServerError)
      ensures IsHandlerStatus(resp)
    {
      resp := UploadImageAndEnqueueThumbnail(event, decode, headFails, putOk, sendOk);
    }
  }
}
