# Image upload and thumbnail pipeline

This project models two AWS Lambda handlers, written in Python, and proves properties of the model in Dafny.

- **Ingestion** (`upload_image.py`) checks an upload request, stores the base64-decoded image in an S3 bucket under the request's filename, and publishes a thumbnail request to an SQS queue.
- **Thumbnail worker** (`upload_thumbnail.py`) takes a filename from a queue record. It derives `images/<filename>` and `thumbnails/<filename>`, then tries up to three times to fetch, resize, re-encode and upload. Between failed attempts it sleeps 2, then 4 seconds.

Modules:

- `Wrappers` (wrappers.dfy): `Option` and `Result`.
- `Responses` (responses.dfy): the `{statusCode, body}` reply, and the generic `500 / "Server Error"` failure shape.
- `UploadImage` (upload_image.dfy):
  - the key-validity predicate;
  - the JSON message body;
  - the ordered admission checks, as a pure function `Admission`;
  - class `Cloud`. Its fields are the bucket (`map<string, Bytes>`), the queue (a sequence of message bodies) and a ghost log of effects. The log records every put and publish in order. The handler is a method on this class.
- `UploadThumbnail` (upload_thumbnail.dfy):
  - the backoff schedule;
  - the retry loop, a method with a `while` loop and its invariants. It returns the result, the number of attempts and a log of `Sleep`/`Upload` steps;
  - key derivation;
  - the handler.
- `Pipeline` (pipeline.dfy): the two handlers together, plus concrete end-to-end scenarios.

Whatever the code cannot see becomes an oracle parameter:

| oracle | stands for |
|---|---|
| `decode: string -> Option<Bytes>` | `base64.b64decode`; `None` means it raised |
| `headFails: bool` | `head_object` raised even though the key exists. `is_filename_present` swallows every exception, so the key then reads as absent. |
| `putOk: bool` | whether `put_object` succeeded; when it raises, nothing is stored |
| `sendOk: bool` | whether `send_message` succeeded |
| `outcomes: seq<bool>` | whether worker attempt `i` got through get, decode, resize, encode and upload |

The model follows the code as written. This includes two places where the two handlers do not agree. `Pipeline` proves both.

- **Different keys.** Ingestion stores the image under the bare filename (`upload_image.py:54`), but the worker fetches `images/<filename>` (`upload_thumbnail.py:44`). Every key ingestion writes is valid, so it contains no `/`. Every source key the worker derives does contain one. So in a bucket filled only by ingestion, the worker never finds its source image (`WorkerNeverFindsIngestedImage`).
- **Different message formats.** Ingestion publishes the JSON text `{"file_path": "<filename>"}` (`upload_image.py:15-18`). The worker uses the whole record body as the filename (`upload_thumbnail.py:42`), so it fetches `images/{"file_path": "<filename>"}` (`PublishedBodyIsNotFilename`).

## Model

| member | source | states |
|---|---|---|
| UploadImage.AllKeyChars | upload_image.py:26 | the `all(...)` scan holds iff every character is alphanumeric, `-` or `_` |
| UploadImage.IsValidObjectKey | upload_image.py:25-26 | a key is valid iff it is non-empty and every character is alphanumeric, `-` or `_`; a valid key contains no `/`, `"` or `{` |
| UploadImage.ValidKeyExamples | upload_image.py:25-26 | `"img-01_A"` is valid; `""` and `"img/01"` are not |
| UploadImage.EscapeKeyChars | upload_image.py:18 | JSON escaping leaves a string of key characters unchanged |
| UploadImage.MessageBody | upload_image.py:15-18 | the message is a JSON object, strictly longer than the file path; its exact text for a valid key is given by `MessageBodyOfValidKey` |
| UploadImage.MessageBodyOfValidKey | upload_image.py:15-18 | the message for a valid key is exactly `{"file_path": "<key>"}` |
| UploadImage.Admission | upload_image.py:36-52 | a request is admitted iff both fields are present, the body decodes, the filename is non-empty, the key does not read as present, and the key is valid; the write is the filename and the decoded bytes; an existing key can be admitted only when the existence check itself failed; the duplicate check comes before the validity check; a body that does not decode is reported before an empty filename |
| UploadImage.Present | upload_image.py:28-33 | a key reads as present only if it is in the bucket; a key in the bucket reads as absent only when `head_object` failed |
| UploadImage.DuplicateBeforeInvalid | upload_image.py:48-52 | a key that is both present and invalid is rejected as a duplicate, not as invalid |
| UploadImage.Cloud.IsFilenamePresent | upload_image.py:28-33 | the answer is `Present` of the current bucket |
| UploadImage.Cloud.PutObject | upload_image.py:54 | on success the bucket maps the key to the content and one `Put` is logged; when the put raises, bucket and log are unchanged; the queue is never touched |
| UploadImage.Cloud.EnqueueThumbnailRequest | upload_image.py:12-23 | on a successful send, exactly the JSON body is appended to the queue and a response is returned; on a failed send, `None` is returned and nothing changes; the bucket is never touched |
| UploadImage.Cloud.UploadImageAndEnqueueThumbnail | upload_image.py:35-69 | any rejection, or a put that raises, answers 500 and leaves the bucket, queue and effect log unchanged; an admitted request whose put succeeds logs exactly one put and then at most one publish; a failed publish answers 500 but the put stays; the answer is 200 iff admitted, stored and published; the status is always 200 or 500 |
| UploadImage.Cloud.LambdaHandler | upload_image.py:71-79 | same state changes and response as the inner handler; it never raises |
| UploadThumbnail.BackoffDelay | upload_thumbnail.py:35 | the sleep after attempt 0 is 2 seconds and after attempt 1 is 4 seconds |
| UploadThumbnail.BackoffLog | upload_thumbnail.py:14-35 | the sleep after failed attempt `i` lasts `2 * 2^i` seconds |
| UploadThumbnail.BackoffSchedule | upload_thumbnail.py:13-35 | the full schedule is `[2, 4]`, 6 seconds in all; any shorter run sleeps a prefix of it |
| UploadThumbnail.SuccessMessage | upload_thumbnail.py:30 | the message is `Thumbnail '`, then the destination key unaltered, then `' uploaded successfully.` |
| UploadThumbnail.FirstSuccess | upload_thumbnail.py:16-30 | finds the first successful attempt among the three allowed, or reports that all of them fail |
| UploadThumbnail.GenerateAndUploadThumbnail | upload_thumbnail.py:12-37 | if attempt `k` is the first success: exactly `k+1` attempts, the sleeps `BackoffLog(k)`, then one upload to the destination key as the last step, then the success message; if all three fail: 3 attempts, sleeps `[2, 4]` and none after the last attempt, then the error |
| UploadThumbnail.ReceivedFilename | upload_thumbnail.py:42 | the filename is `Records[0].body`, and is absent exactly when `Records` is missing or empty or the record has no body |
| UploadThumbnail.SourceKey | upload_thumbnail.py:44 | the source key is `images/` followed by the filename |
| UploadThumbnail.DestinationKey | upload_thumbnail.py:45 | the destination key is `thumbnails/` followed by the filename |
| UploadThumbnail.DerivedKeysInjective | upload_thumbnail.py:44-45 | distinct filenames give distinct source keys and distinct destination keys |
| UploadThumbnail.SourceIsNeverDestination | upload_thumbnail.py:44-45 | no source key equals any destination key |
| UploadThumbnail.ProcessThumbnail | upload_thumbnail.py:40-59 | a malformed event answers 500 with no attempt; otherwise the retry loop runs on the derived keys; success answers 200 with `Thumbnail '<destination>' uploaded successfully.`; exhaustion answers 500; the status is always 200 or 500 and there are at most 3 attempts |
| UploadThumbnail.LambdaHandler | upload_thumbnail.py:61-62 | same as `process_thumbnail`; the answer is 200 iff the event is well formed and some attempt succeeds, and every other answer is the generic failure |
| Pipeline.AdmissionKeepsKeysValid | upload_image.py:51-54 | an admitted put keeps every key in the bucket valid |
| Pipeline.SourceKeyIsNeverValid | upload_thumbnail.py:44 | no source key the worker derives is a valid ingestion key |
| Pipeline.WorkerNeverFindsIngestedImage | upload_thumbnail.py:44 | in a bucket whose keys all came through ingestion, no source key the worker derives is present |
| Pipeline.PublishedBodyIsNotFilename | upload_thumbnail.py:42-44 | the worker takes the published JSON body as its filename: that is not the stored key, and the worker fetches `images/{"file_path": "<key>"}` rather than `images/<key>` or `<key>` |
| Pipeline.Cat1Body | upload_image.py:15-18 | the message published for `cat1` is `{"file_path": "cat1"}` |
| Pipeline.Cat1Destination | upload_thumbnail.py:45 | the destination key for `cat1` is `thumbnails/cat1` |
| Pipeline.Cat1Message | upload_thumbnail.py:30 | the success message for `cat1` is `Thumbnail 'thumbnails/cat1' uploaded successfully.` |
| Pipeline.UploadTwice | upload_image.py:35-79 | the first upload of `cat1` into an empty bucket answers 200, stores the decoded bytes and queues one message; the same upload again answers 500 and writes nothing |
| Pipeline.UploadWithLostMessage | upload_image.py:54-58 | when the publish fails, the answer is 500, the image stays stored and the queue stays empty |
| Pipeline.UploadWithFailedPut | upload_image.py:54-69 | when the put raises, the answer is 500 and neither the bucket nor the queue changes |
| Pipeline.DeliverPublishedMessage | upload_thumbnail.py:12-59 | if an attempt succeeds only when its source object exists, the message published for an admitted key into a bucket filled by ingestion gives 3 failed attempts, no upload, and the 500 answer |
| Pipeline.DeliverCat1 | upload_thumbnail.py:40-62 | a record whose body is `cat1`, succeeding on the first attempt, answers 200 with no sleep and one upload to `thumbnails/cat1` |
| Pipeline.SucceedOnThirdAttempt | upload_thumbnail.py:12-53 | failing, failing, then succeeding gives 3 attempts, sleeps of 2 and 4 seconds, then the upload and 200 |
| Pipeline.FailAllAttempts | upload_thumbnail.py:12-59 | three failures give 3 attempts, sleeps of 2 and 4 seconds (6 in all), and the 500 response |

## Left out

- The S3 and SQS network calls (`head_object`, `put_object`, `send_message`, `get_object`, `upload_fileobj`) are replaced by the bucket map, the message sequence and the oracle parameters listed above. The bucket and queue names and the queue URL are constants.
- IsValidObjectKey: Python's `str.isalnum` accepts every Unicode letter and digit. `IsAlnum` accepts only ASCII letters and digits, so a key made of, for example, accented letters is valid in the source but invalid here.
- MessageBody: `json.dumps` also escapes control characters and, by default, every non-ASCII character as `\uXXXX`; only `"` and `\` are escaped here. The keys this model admits are ASCII key characters, which need no escaping, so `MessageBodyOfValidKey` and `PublishedBodyIsNotFilename` give the verbatim body `{"file_path": "<key>"}`. A non-ASCII key that the source accepts (such as `café`) would be published with `\uXXXX` escapes (`{"file_path": "caf\u00e9"}`); that case is not modelled.
- UploadImage.Cloud.EnqueueThumbnailRequest: the `send_message` reply (message id, checksum) stands as the position of the message in the queue. Only its presence matters to the caller.
- The request fields are strings when present. Python would also accept other values: a `None` filename fails the emptiness check, and most other non-strings raise later. All of these end in the same 500.
- PIL (decoding, `resize((100, 100))`, JPEG encoding) and the thumbnail bytes. They are folded into one outcome per attempt, and the `Upload` step records only the bucket and key written.
- The worker's uploads appear in its step log. They are not applied to the `Cloud` bucket of the ingestion model.
- The cause carried by the worker's final exception message, and everything that is logged.
- `time.sleep` is recorded as a duration and takes no time.
- Concurrency: each invocation is modelled as sequential. The race between the existence check and the put, and queue redelivery, are outside the model.
- The Lambda `context` argument is unused by both handlers and is not modelled.
