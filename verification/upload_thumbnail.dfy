/**
 * The thumbnail worker: takes a filename from a queue message, derives the
 * source and destination keys, and tries up to three times to fetch, resize,
 * re-encode and upload the image, sleeping with exponential backoff between
 * attempts.
 *
 * Everything one attempt does (get_object, PIL decode, resize to 100x100,
 * JPEG encode, upload_fileobj) is folded into one oracle boolean per attempt.
 * Each `time.sleep` and the final upload are recorded, in order, in a log.
 */
module UploadThumbnail {
  import opened Wrappers
  import opened Responses

  const MaxRetries: nat := 3
  /** Initial delay between retries, in seconds. */
  const RetryDelay: nat := 2
  const SourceBucket := "your-bucket-name"
  const SourcePrefix := "images/"
  const DestinationPrefix := "thumbnails/"

  // ---------------------------------------------------------------------
  // Backoff schedule
  // ---------------------------------------------------------------------

  /** `2 ** n` */
  function Pow2(n: nat): nat {
    if n == 0 then 1 else 2 * Pow2(n - 1)
  }

  /** `retry_delay * (2 ** retry_attempt)`: the sleep after failed attempt `attempt`. */
  function BackoffDelay(attempt: nat): (r: nat)
    // the two attempts that are followed by another one sleep 2 and 4 seconds
    ensures attempt < MaxRetries - 1 ==> r == [2, 4][attempt]
  {
    assert Pow2(1) == 2 * Pow2(0);
    RetryDelay * Pow2(attempt)
  }

  /** One observable step of the worker. */
  datatype Step = Sleep(seconds: nat) | Upload(bucket: string, key: string)

  /** The sleeps that follow the first `n` failed attempts, each of them followed by another attempt. */
  function BackoffLog(n: nat): (r: seq<Step>)
    ensures |r| == n
    ensures forall i :: 0 <= i < n ==> r[i] == Sleep(RetryDelay * Pow2(i))
  {
    if n == 0 then [] else BackoffLog(n - 1) + [Sleep(BackoffDelay(n - 1))]
  }

  /** Total time slept in a log. */
  function TotalSleep(log: seq<Step>): nat {
    if log == [] then 0
    else (if log[0].Sleep? then log[0].seconds else 0) + TotalSleep(log[1..])
  }

  /** The schedule is 2 then 4 seconds, 6 in all; every shorter run sleeps a prefix of it. */
  lemma {:induction false} BackoffSchedule(n: nat)
    requires n <= MaxRetries - 1
    ensures BackoffLog(MaxRetries - 1) == [Sleep(2), Sleep(4)]
    ensures BackoffLog(n) <= [Sleep(2), Sleep(4)]
    ensures TotalSleep(BackoffLog(MaxRetries - 1)) == 6
  {
    var full := BackoffLog(2);
    assert full[0] == Sleep(2 * Pow2(0));
    assert full[1] == Sleep(2 * Pow2(1));
    assert full == [Sleep(2), Sleep(4)];
    assert BackoffLog(n) == full[..n];
    assert full[1..] == [Sleep(4)];
    assert TotalSleep(full[1..][1..]) == 0;
  }

  // ---------------------------------------------------------------------
  // The retry loop
  // ---------------------------------------------------------------------

  /** The exception raised once every attempt has failed. */
  datatype WorkerError = RetriesExhausted

  const SuccessPrefix := "Thumbnail '"
  const SuccessSuffix := "' uploaded successfully."

  /** `f"Thumbnail '{destination_key}' uploaded successfully."` */
  function SuccessMessage(destinationKey: string): (r: string)
    // the destination key sits, unaltered, between the fixed prefix and suffix
    ensures |r| == |SuccessPrefix| + |destinationKey| + |SuccessSuffix|
    ensures r[..|SuccessPrefix|] == SuccessPrefix
    ensures r[|SuccessPrefix|..|SuccessPrefix| + |destinationKey|] == destinationKey
    ensures r[|SuccessPrefix| + |destinationKey|..] == SuccessSuffix
  {
    SuccessPrefix + destinationKey + SuccessSuffix
  }

  /** The index of the first successful attempt at or after `from`, if any of the allowed attempts succeeds. */
  function FirstSuccess(outcomes: seq<bool>, from: nat): (r: Option<nat>)
    requires |outcomes| >= MaxRetries
    ensures r.Some? ==> from <= r.value < MaxRetries && outcomes[r.value]
                        && forall j :: from <= j < r.value ==> !outcomes[j]
    ensures r.None? <==> forall j :: from <= j < MaxRetries ==> !outcomes[j]
    decreases MaxRetries - from
  {
    if from >= MaxRetries then None
    else if outcomes[from] then Some(from)
    else FirstSuccess(outcomes, from + 1)
  }

  /**
   * `generate_and_upload_thumbnail`. `outcomes[i]` says whether attempt `i`
   * got through fetch, decode, resize, encode and upload.
   */
  method GenerateAndUploadThumbnail(sourceBucket: string, sourceKey: string, destinationKey: string,
                                    outcomes: seq<bool>)
    returns (result: Result<string, WorkerError>, attempts: nat, log: seq<Step>)
    requires |outcomes| >= MaxRetries
    // the first success ends the loop at once, with the upload as its last step
    ensures FirstSuccess(outcomes, 0).Some? ==>
      var k := FirstSuccess(outcomes, 0).value;
      && result == Ok(SuccessMessage(destinationKey))
      && attempts == k + 1
      && log == BackoffLog(k) + [Upload(sourceBucket, destinationKey)]
    // three failures: two sleeps, none after the last attempt, then the error
    ensures FirstSuccess(outcomes, 0).None? ==>
      && result == Err(RetriesExhausted)
      && attempts == MaxRetries
      && log == BackoffLog(MaxRetries - 1)
  {
    attempts, log := 0, [];
    var retryAttempt := 0;
    while retryAttempt < MaxRetries
      invariant 0 <= retryAttempt <= MaxRetries
      invariant attempts == retryAttempt
      invariant forall j :: 0 <= j < retryAttempt ==> !outcomes[j]
      invariant log == BackoffLog(if retryAttempt < MaxRetries then retryAttempt else MaxRetries - 1)
    {
      attempts := attempts + 1;
      if outcomes[retryAttempt] {
        log := log + [Upload(sourceBucket, destinationKey)];
        result := Ok(SuccessMessage(destinationKey));
        return;
      }
      if retryAttempt < MaxRetries - 1 {
        log := log + [Sleep(BackoffDelay(retryAttempt))];
      }
      retryAttempt := retryAttempt + 1;
    }
    // Reached only after the last attempt failed: the source raises in that
    // attempt's handler, which is the same point.
    result := Err(RetriesExhausted);
  }

  // ---------------------------------------------------------------------
  // The handler
  // ---------------------------------------------------------------------

  /** One queue record: its `body` key may be missing. */
  datatype SqsRecord = SqsRecord(body: Option<string>)

  /** The invocation event: its `Records` key may be missing. */
  datatype SqsEvent = SqsEvent(records: Option<seq<SqsRecord>>)

  /** `event['Records'][0]['body']`, or `None` where that lookup raises. */
  function ReceivedFilename(event: SqsEvent): (r: Option<string>)
    ensures r.Some? <==> event.records.Some? && |event.records.value| > 0
                         && event.records.value[0].body.Some?
    ensures r.Some? ==> r.value == event.records.value[0].body.value
  {
    match event.records
    case None => None
    case Some(records) =>
      if |records| == 0 then None else records[0].body
  }

  /** `f'images/{filename}'` */
  function SourceKey(filename: string): (r: string)
    ensures |r| == |SourcePrefix| + |filename|
    ensures r[..|SourcePrefix|] == SourcePrefix && r[|SourcePrefix|..] == filename
  {
    SourcePrefix + filename
  }

  /** `f'thumbnails/{filename}'` */
  function DestinationKey(filename: string): (r: string)
    ensures |r| == |DestinationPrefix| + |filename|
    ensures r[..|DestinationPrefix|] == DestinationPrefix && r[|DestinationPrefix|..] == filename
  {
    DestinationPrefix + filename
  }

  /** Distinct filenames never share a source or a destination key. */
  lemma DerivedKeysInjective(a: string, b: string)
    ensures SourceKey(a) == SourceKey(b) ==> a == b
    ensures DestinationKey(a) == DestinationKey(b) ==> a == b
  {
  }

  /** A thumbnail never lands on a source image's key. */
  lemma SourceIsNeverDestination(a: string, b: string)
    ensures SourceKey(a) != DestinationKey(b)
  {
    assert SourceKey(a)[0] == 'i';
    assert DestinationKey(b)[0] == 't';
  }

  /**
   * What `process_thumbnail` answers and does for an event, given the outcome
   * of each attempt: a malformed event fails before any attempt; otherwise
   * the retry loop runs on the keys derived from the filename, and its
   * exception becomes the generic failure response.
   */
  ghost predicate Handled(event: SqsEvent, outcomes: seq<bool>, resp: Response, attempts: nat, log: seq<Step>)
    requires |outcomes| >= MaxRetries
  {
    match ReceivedFilename(event)
    case None => resp == ServerError && attempts == 0 && log == []
    case Some(filename) =>
      match FirstSuccess(outcomes, 0)
      case Some(k) =>
        && resp == Response(200, SuccessMessage(DestinationKey(filename)))
        && attempts == k + 1
        && log == BackoffLog(k) + [Upload(SourceBucket, DestinationKey(filename))]
      case None =>
        resp == ServerError && attempts == MaxRetries && log == BackoffLog(MaxRetries - 1)
  }

  /** `process_thumbnail` */
  method ProcessThumbnail(event: SqsEvent, outcomes: seq<bool>)
    returns (resp: Response, attempts: nat, log: seq<Step>)
    requires |outcomes| >= MaxRetries
    ensures Handled(event, outcomes, resp, attempts, log)
    ensures IsHandlerStatus(resp)
    ensures attempts <= MaxRetries
  {
    var filename := ReceivedFilename(event);
    if filename.None? {
      return ServerError, 0, [];
    }
    var sourceKey := SourceKey(filename.value);
    var destinationKey := DestinationKey(filename.value);
    var result;
    result, attempts, log := GenerateAndUploadThumbnail(SourceBucket, sourceKey, destinationKey, outcomes);
    match result
    case Ok(message) =>
      resp := Response(200, message);
    case Err(_) =>
      resp := ServerError;
  }

  /** `lambda_handler`: forwards to `process_thumbnail`. */
  method LambdaHandler(event: SqsEvent, outcomes: seq<bool>)
    returns (resp: Response, attempts: nat, log: seq<Step>)
    requires |outcomes| >= MaxRetries
    ensures Handled(event, outcomes, resp, attempts, log)
    ensures resp.statusCode == 200 <==> ReceivedFilename(event).Some? && FirstSuccess(outcomes, 0).Some?
    ensures resp.statusCode != 200 ==> resp == ServerError
  {
    resp, attempts, log := ProcessThumbnail(event, outcomes);
  }
}
