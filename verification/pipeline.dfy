/**
 * The two handlers together: what the ingestion side writes and publishes,
 * set against what the worker reads. Two things do not line up. The image
 * is stored under the bare filename, but the worker fetches
 * `images/<filename>`. The message body is the JSON text
 * `{"file_path": "<filename>"}`, but the worker uses the whole body as the
 * filename.
 */
module Pipeline {
  import opened Wrappers
  import opened Responses
  import opened UploadImage
  import opened UploadThumbnail

  /** Every key in the bucket passed the ingestion checks. */
  ghost predicate OnlyIngestedKeys(bucket: map<string, Bytes>) {
    forall k :: k in bucket ==> IsValidObjectKey(k)
  }

  /** An admitted upload keeps the bucket free of keys ingestion would refuse. */
  lemma AdmissionKeepsKeysValid(event: UploadEvent, decode: string -> Option<Bytes>,
                                bucket: map<string, Bytes>, headFails: bool)
    requires OnlyIngestedKeys(bucket)
    requires Admission(event, decode, bucket, headFails).Ok?
    ensures var u := Admission(event, decode, bucket, headFails).value;
            OnlyIngestedKeys(bucket[u.key := u.content])
  {
  }

  /** A source key the worker derives always holds a '/', which no valid key does. */
  lemma SourceKeyIsNeverValid(filename: string)
    ensures !IsValidObjectKey(SourceKey(filename))
  {
  }

  /** In a bucket filled only by ingestion, the worker finds no source image, whatever filename it is given. */
  lemma WorkerNeverFindsIngestedImage(bucket: map<string, Bytes>, filename: string)
    requires OnlyIngestedKeys(bucket)
    ensures SourceKey(filename) !in bucket
  {
  }

  /** The queue record carrying a published message body. */
  function Delivery(body: string): SqsEvent {
    SqsEvent(Some([SqsRecord(Some(body))]))
  }

  /**
   * For an admitted key, the worker takes the whole JSON body as its
   * filename: neither the stored key nor `images/<key>` is what it fetches.
   */
  lemma PublishedBodyIsNotFilename(key: string)
    requires IsValidObjectKey(key)
    ensures ReceivedFilename(Delivery(MessageBody(key))) == Some(MessageBody(key))
    ensures MessageBody(key) != key
    ensures SourceKey(MessageBody(key)) == "images/{\"file_path\": \"" + key + "\"}"
    ensures SourceKey(MessageBody(key)) != SourceKey(key)
    ensures SourceKey(MessageBody(key)) != key
  {
    MessageBodyOfValidKey(key);
    SourceKeyIsNeverValid(MessageBody(key));
  }

  /** The queue message published for "cat1". */
  lemma Cat1Body()
    ensures MessageBody("cat1") == "{\"file_path\": \"cat1\"}"
  {
  }

  const Hello: Bytes := [104, 101, 108, 108, 111]

  /**
   * Upload "cat1" into an empty bucket, then upload it again: the first
   * call stores it and publishes one message; the second is refused as a
   * duplicate and writes nothing.
   */
  method UploadTwice(decode: string -> Option<Bytes>)
    returns (first: Response, second: Response, stored: map<string, Bytes>, queued: seq<string>)
    requires decode("aGVsbG8=") == Some(Hello)
    ensures first == Response(200, "Image uploaded successfully!")
    ensures second == Response(500, "Server Error")
    ensures stored == map["cat1" := Hello]
    ensures queued == ["{\"file_path\": \"cat1\"}"]
  {
    var cloud := new Cloud(map[]);
    var event := UploadEvent(Some("aGVsbG8="), Some("cat1"));
    assert IsValidObjectKey("cat1");
    Cat1Body();
    first := cloud.LambdaHandler(event, decode, false, true, true);
    assert cloud.queue == [MessageBody("cat1")];
    assert Admission(event, decode, cloud.bucket, false) == Err(DuplicateKey);
    second := cloud.LambdaHandler(event, decode, false, true, true);
    stored, queued := cloud.bucket, cloud.queue;
  }

  /** A failed publish answers 500 but leaves the stored image in place. */
  method UploadWithLostMessage(decode: string -> Option<Bytes>)
    returns (resp: Response, stored: map<string, Bytes>, queued: seq<string>)
    requires decode("aGVsbG8=") == Some(Hello)
    ensures resp == ServerError
    ensures stored == map["cat1" := Hello]
    ensures queued == []
  {
    var cloud := new Cloud(map[]);
    assert IsValidObjectKey("cat1");
    resp := cloud.LambdaHandler(UploadEvent(Some("aGVsbG8="), Some("cat1")), decode, false, true, false);
    stored, queued := cloud.bucket, cloud.queue;
  }

  /** A put that raises answers 500, stores nothing and publishes nothing. */
  method UploadWithFailedPut(decode: string -> Option<Bytes>)
    returns (resp: Response, stored: map<string, Bytes>, queued: seq<string>)
    requires decode("aGVsbG8=") == Some(Hello)
    ensures resp == ServerError
    ensures stored == map[]
    ensures queued == []
  {
    var cloud := new Cloud(map[]);
    resp := cloud.LambdaHandler(UploadEvent(Some("aGVsbG8="), Some("cat1")), decode, false, false, true);
    stored, queued := cloud.bucket, cloud.queue;
  }

  /**
   * If an attempt can get through only when its source object exists, the
   * message published for an admitted key never yields a thumbnail: every
   * attempt fails, nothing is uploaded and the worker answers 500.
   */
  method DeliverPublishedMessage(bucket: map<string, Bytes>, key: string, outcomes: seq<bool>)
    returns (resp: Response, attempts: nat, log: seq<Step>)
    requires OnlyIngestedKeys(bucket) && IsValidObjectKey(key)
    requires |outcomes| >= MaxRetries
    requires forall i :: 0 <= i < |outcomes| && outcomes[i] ==> SourceKey(MessageBody(key)) in bucket
    ensures resp == ServerError && attempts == MaxRetries
    ensures forall i :: 0 <= i < |log| ==> log[i].Sleep?
  {
    WorkerNeverFindsIngestedImage(bucket, MessageBody(key));
    resp, attempts, log := LambdaHandler(Delivery(MessageBody(key)), outcomes);
  }

  /** The destination key the worker derives for "cat1". */
  lemma Cat1Destination()
    ensures DestinationKey("cat1") == "thumbnails/cat1"
  {
  }

  /** The success message for the "cat1" thumbnail. */
  lemma Cat1Message()
    ensures SuccessMessage(DestinationKey("cat1")) == "Thumbnail 'thumbnails/cat1' uploaded successfully."
  {
  }

  /** A record whose body is "cat1", processed on the first attempt. */
  method DeliverCat1(outcomes: seq<bool>) returns (resp: Response, log: seq<Step>)
    requires |outcomes| >= MaxRetries && outcomes[0]
    ensures resp == Response(200, "Thumbnail 'thumbnails/cat1' uploaded successfully.")
    ensures log == [Upload("your-bucket-name", "thumbnails/cat1")]
  {
    Cat1Destination();
    Cat1Message();
    assert ReceivedFilename(Delivery("cat1")) == Some("cat1");
    assert FirstSuccess(outcomes, 0) == Some(0);
    var attempts;
    resp, attempts, log := LambdaHandler(Delivery("cat1"), outcomes);
  }

  /** Two failures and then a success: sleeps of 2 and 4 seconds, then the upload. */
  method SucceedOnThirdAttempt() returns (resp: Response, attempts: nat, log: seq<Step>)
    ensures resp == Response(200, "Thumbnail 'thumbnails/cat1' uploaded successfully.")
    ensures attempts == 3
    ensures log == [Sleep(2), Sleep(4), Upload("your-bucket-name", "thumbnails/cat1")]
  {
    Cat1Destination();
    Cat1Message();
    assert ReceivedFilename(Delivery("cat1")) == Some("cat1");
    BackoffSchedule(0);
    assert FirstSuccess([false, false, true], 0) == Some(2);
    resp, attempts, log := ProcessThumbnail(Delivery("cat1"), [false, false, true]);
  }

  /** Three failures: two sleeps, three attempts, and the generic failure response. */
  method FailAllAttempts() returns (resp: Response, attempts: nat, log: seq<Step>)
    ensures resp == ServerError
    ensures attempts == 3
    ensures log == [Sleep(2), Sleep(4)]
    ensures TotalSleep(log) == 6
  {
    BackoffSchedule(0);
    resp, attempts, log := ProcessThumbnail(Delivery("cat1"), [false, false, false]);
  }
}
