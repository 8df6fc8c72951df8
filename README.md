# Resumable download task and multipart-initiate request of the COS XML Android SDK

This project models two components of the Tencent Cloud Object Storage (COS) XML SDK for Android, and proves properties of the model in Dafny.

**`COSXMLDownloadTask`** downloads one object, or one byte range of it, into a local file, and can resume after an interruption. It works as follows:

- Before downloading, the task sends a HEAD probe for the object.
- It looks for a resume record in the app's SharedPreferences. The record is keyed by a fingerprint that covers:
  - the region, bucket, object key, byte range, file offset, save directory and file name;
  - the ETag reported by the probe.
- The record's value is the local path of the partial file.
- With that record and the local file, the task decides one of three things:
  - the download is already complete;
  - it resumes with a ranged GET for the residual bytes;
  - it starts afresh, after saving the path under the key.
- Progress from the GET is shifted by the bytes already in the file.
- `pause`, `cancel` and `resume` each act only when the task's state gate accepts the transition.

The model has two parts:

- Module `DownloadPlan` holds the pure parts as functions and lemmas:
  - reading the `Range` header (byte-range-spec, section 2.1 of RFC 7233);
  - the fingerprint key;
  - the download path;
  - the store operations, over a `map<string, string>`;
  - the HEAD-success decision;
  - progress offsetting.
- Module `Transfer` holds the class `DownloadTask`:
  - Its fields are the task's fields.
  - Each network callback is a method that the environment calls with what the service answered: `OnHeadExecuting`, `OnHeadSuccess`, `OnHeadFail`, `OnGetProgress`, `OnGetSuccess` and `OnGetFail`.
  - Listener calls are appended to `notices` in the order they happen.

**`InitMultipartUploadRequest`** is the request that starts a multipart upload. It covers:

- the normalised request path;
- the fixed query `uploads` and method `POST`;
- the parameter check;
- header setters that write only non-null values;
- the ACL grant headers. Each is built from an account list as `uin="x1",...` or `id="qcs::cam::x1",...`.

Module `InitMultipartUpload` has these grant members:

- a spec function, `GrantValue`, built on `Joining.Join`;
- the StringBuilder loop of the source, `AppendGrants`, proved equal to that function;
- an inverse, `ParseGrant`, with a round-trip lemma.

The setters named `...WithUIN` pass id type 1, so they produce the `id="qcs::cam::..."` format. The plain setters pass id type 0 and produce the `uin="..."` format. The model keeps this mapping exactly as written.

Supporting modules:

- `Wrappers`: `Option`, `Result`, `Outcome`. Java `null` is `None`; a thrown exception is an `Err`/`Fail` value.
- `JavaText`: the java.lang behaviour the code relies on. The 64-bit `long` type is `Long`, with explicit two's-complement wrap-around (`Wrap`). It also covers `indexOf`, `lastIndexOf`, `startsWith`, `endsWith`, `Long.valueOf` and `Long.toString`. It renders `null` as `"null"` in a `StringBuffer`.
- `Joining`: joining parts with a one-character separator, and splitting again.

Environment inputs are parameters or fields of the model. The task uses these constant fields:

- `digest` is SHA-1, assumed injective where a lemma needs it.
- `legal` is the state gate `updateState`, given as a predicate on (current, target).
- `hasStore` is whether a `Context` was given.
- `hasProgressListener` and `hasResultListener` say whether each listener is registered.

The file system's answers (whether the file exists, and its length) are arguments of `OnHeadSuccess`.

The model follows the code in these points:

- A failed GET clears the resume record (`OnGetFail`, `COSXMLDownloadTask.java:180`), so a later task starts from byte 0.
- `pause()` reports `onFail("paused by user")` to the result listener (`Pause`, lines 196-200).
- A changed ETag does not delete the old record. The record only stops being found, because the ETag is part of the key (`StaleRecordInvisible`).
- A suffix range `bytes=-n` is not understood. `Long.valueOf("")` throws (`SuffixRangeRejected`).
- An empty account list, or an id type other than 0 and 1, still writes the grant header, with a null value (`ApplyGrant`).

The HEAD-success decision has three defects (see Findings).

- `PlanAsWritten` is the decision exactly as written. Lemmas exhibit each defect on it.
- `Plan` is the corrected decision, with the intended properties proved.
- The task's callback `OnHeadSuccess` does what the code does: it carries out `PlanAsWritten`.
- `OnHeadSuccessCorrected` is the same callback carrying out `Plan`.
- Both callbacks share `ApplyPlan`, whose effects are stated by `HeadEffects`.

## Model

| member | source | states |
|---|---|---|
| DownloadPlan.ParseRangeHeader | QCloudCosXml/cosxml/src/main/java/com/tencent/cos/xml/transfer/COSXMLDownloadTask.java:67-77 | With no Range header, the range is (0, -1). A header with no value is an error; the source throws on `ranges.get(0)`. A successful read needs a `-` in the first value. |
| DownloadPlan.ParseByteRangeSpec | QCloudCosXml/cosxml/src/main/java/com/tencent/cos/xml/transfer/COSXMLDownloadTask.java:67-77 | Reading `bytes=a-b` gives (a, b), and `bytes=a-` gives (a, -1), for any a ≥ 0. Only the first value of the header is read. |
| DownloadPlan.ByteRangeLayout | QCloudCosXml/cosxml/src/main/java/com/tencent/cos/xml/transfer/COSXMLDownloadTask.java:70-73 | In `bytes=digits-tail`, `indexOf("=")` is 5 and `indexOf("-")` is just after the digits. The substrings between them and after the dash are the digits and the tail. |
| DownloadPlan.SuffixRangeRejected | QCloudCosXml/cosxml/src/main/java/com/tencent/cos/xml/transfer/COSXMLDownloadTask.java:70-72 | A suffix range `bytes=-n` fails with a number-format error, because the first bound is the empty string. |
| Transfer.DownloadTask.FromGetObjectRequest | QCloudCosXml/cosxml/src/main/java/com/tencent/cos/xml/transfer/COSXMLDownloadTask.java:58-79 | A task is built exactly when the Range header parses. Otherwise the parse error is returned. The task has the parsed range and the request's file offset. It gets the request's region, bucket, key, directory and file name, and the given store, digest, gate and listener flags. Its other fields have the constructor's defaults: no ETag, nothing written, state Waiting, no requests, no notices, no exception and no result. |
| DownloadPlan.ParseRangeValue | QCloudCosXml/cosxml/src/main/java/com/tencent/cos/xml/transfer/COSXMLDownloadTask.java:69-76 | Reading fails with an index error exactly when the first `-` is not after the first `=`. On success, the first bound is `Long.valueOf` of the text between them. The last bound is -1 when nothing follows the dash, and otherwise `Long.valueOf` of what follows. |
| JavaText.ParseLong | QCloudCosXml/cosxml/src/main/java/com/tencent/cos/xml/transfer/COSXMLDownloadTask.java:72-75 | The empty string is rejected. A string of ASCII digits is accepted exactly when its value fits in a long, and then denotes that value. |
| JavaText.LongToString | QCloudCosXml/cosxml/src/main/java/com/tencent/cos/xml/transfer/COSXMLDownloadTask.java:258-260 | A minus sign exactly for negative values, followed by the decimal digits of the magnitude. `ParseLongToString` is its inverse. |
| Transfer.DownloadTask.constructor | QCloudCosXml/cosxml/src/main/java/com/tencent/cos/xml/transfer/COSXMLDownloadTask.java:37-56 | The task has the given identity and defaults: no ETag, nothing written, no requests, no notices. The store starts with what earlier tasks left in it. |
| DownloadPlan.KeyFields | QCloudCosXml/cosxml/src/main/java/com/tencent/cos/xml/transfer/COSXMLDownloadTask.java:252-263 | The key source has ten fields, starting with "download" and ending with the ETag as a StringBuffer renders it. |
| DownloadPlan.KeySource | QCloudCosXml/cosxml/src/main/java/com/tencent/cos/xml/transfer/COSXMLDownloadTask.java:253-263 | The text that is hashed starts with `download_` and ends with `_` and the rendered ETag. |
| Joining.JoinEndsWith | QCloudCosXml/cosxml/src/main/java/com/tencent/cos/xml/transfer/COSXMLDownloadTask.java:262-263 | A join of several parts ends with the separator and the last part. |
| DownloadPlan.Key | QCloudCosXml/cosxml/src/main/java/com/tencent/cos/xml/transfer/COSXMLDownloadTask.java:264-265 | The key is the digest of the key source. Under an injective digest, only identities with the same key source share it. |
| Transfer.DownloadTask.GetKey | QCloudCosXml/cosxml/src/main/java/com/tencent/cos/xml/transfer/COSXMLDownloadTask.java:252-269 | The task's current key. Under an injective digest, any other rendered ETag gives a different key. |
| DownloadPlan.KeyDiffersAt | QCloudCosXml/cosxml/src/main/java/com/tencent/cos/xml/transfer/COSXMLDownloadTask.java:252-269 | Take an injective digest and two identities whose key fields differ in exactly one field. Their keys differ. |
| DownloadPlan.KeyDiffersOnETag | QCloudCosXml/cosxml/src/main/java/com/tencent/cos/xml/transfer/COSXMLDownloadTask.java:252-269 | A changed ETag gives a different key. |
| DownloadPlan.KeyDiffersOnRangeStart | QCloudCosXml/cosxml/src/main/java/com/tencent/cos/xml/transfer/COSXMLDownloadTask.java:252-269 | A changed first byte gives a different key. |
| DownloadPlan.KeyDiffersOnFileOffset | QCloudCosXml/cosxml/src/main/java/com/tencent/cos/xml/transfer/COSXMLDownloadTask.java:252-269 | A changed file offset gives a different key. |
| DownloadPlan.NullETagSharesKey | QCloudCosXml/cosxml/src/main/java/com/tencent/cos/xml/transfer/COSXMLDownloadTask.java:262-263 | A missing ETag and the ETag text "null" give the same key, because `StringBuffer` renders null as "null". |
| Joining.JoinDiffersAt | QCloudCosXml/cosxml/src/main/java/com/tencent/cos/xml/transfer/COSXMLDownloadTask.java:253-263 | Two `_`-joined field lists that differ at exactly one position are different strings. |
| JavaText.Show | QCloudCosXml/cosxml/src/main/java/com/tencent/cos/xml/transfer/COSXMLDownloadTask.java:254-263 | A null string appends as "null". Any other string appends as itself. |
| JavaText.LongToStringInjective | QCloudCosXml/cosxml/src/main/java/com/tencent/cos/xml/transfer/COSXMLDownloadTask.java:258-260 | Different longs are appended as different decimal texts. |
| JavaText.ParseLongToString | QCloudCosXml/cosxml/src/main/java/com/tencent/cos/xml/transfer/COSXMLDownloadTask.java:72-75 | `Long.valueOf(Long.toString(n)) == n` for every long n. |
| JavaText.DigitsRoundTrip | QCloudCosXml/cosxml/src/main/java/com/tencent/cos/xml/transfer/COSXMLDownloadTask.java:72-75 | The decimal digits of n denote n. |
| JavaText.IndexOf | QCloudCosXml/cosxml/src/main/java/com/tencent/cos/xml/transfer/COSXMLDownloadTask.java:70-71 | The result is the first position of the character, or -1 exactly when the character is absent. |
| JavaText.IndexOfIs | QCloudCosXml/cosxml/src/main/java/com/tencent/cos/xml/transfer/COSXMLDownloadTask.java:70-71 | A position that holds the character, with no earlier occurrence, is the one `indexOf` returns. |
| JavaText.LastIndexOf | QCloudCosXml/cosxml/src/main/java/com/tencent/cos/xml/transfer/COSXMLDownloadTask.java:306 | The result is the last position of the character, or -1 exactly when the character is absent. |
| JavaText.Wrap | QCloudCosXml/cosxml/src/main/java/com/tencent/cos/xml/transfer/COSXMLDownloadTask.java:118-119 | The `long` a Java expression yields: the exact value when it is in range, else that value reduced modulo 2^64. |
| JavaText.WrapShift | QCloudCosXml/cosxml/src/main/java/com/tencent/cos/xml/transfer/COSXMLDownloadTask.java:118-119 | Values that differ by a multiple of 2^64 wrap to the same long. |
| JavaText.AddWrappedDifference | QCloudCosXml/cosxml/src/main/java/com/tencent/cos/xml/transfer/COSXMLDownloadTask.java:118-119 | In long arithmetic, `fileOffset + (L - fileOffset)` is L, even when the subtraction wraps. |
| JavaText.AddWrapped | QCloudCosXml/cosxml/src/main/java/com/tencent/cos/xml/transfer/COSXMLDownloadTask.java:118-119 | `rangeStart + Wrap(L - fileOffset)` wraps like `rangeStart + L - fileOffset`. |
| DownloadPlan.WithTrailingSlash | QCloudCosXml/cosxml/src/main/java/com/tencent/cos/xml/transfer/COSXMLDownloadTask.java:291-296 | The result ends in `/`. It is the directory itself when that already ends in `/`, and the directory plus `/` otherwise. |
| DownloadPlan.LastSegment | QCloudCosXml/cosxml/src/main/java/com/tencent/cos/xml/transfer/COSXMLDownloadTask.java:305-311 | The result has no `/`, and the object key ends with it. When the key has a `/`, the result follows the key's last `/`. Otherwise the result is the whole key. |
| DownloadPlan.DownloadPath | QCloudCosXml/cosxml/src/main/java/com/tencent/cos/xml/transfer/COSXMLDownloadTask.java:289-315 | Null exactly when the directory is null. Otherwise it is the directory with a trailing `/`, followed by the file name if there is one. Without a file name it is followed by the key's last segment, or by nothing if there is no key. |
| Transfer.DownloadTask.GetDownloadPath | QCloudCosXml/cosxml/src/main/java/com/tencent/cos/xml/transfer/COSXMLDownloadTask.java:289-315 | The task's download path is null exactly when it has no save directory. |
| DownloadPlan.Lookup | QCloudCosXml/cosxml/src/main/java/com/tencent/cos/xml/transfer/COSXMLDownloadTask.java:271-276 | With no store, the lookup is always null. With a store, it finds a record exactly when the key is present. |
| Transfer.DownloadTask.HasExisted | QCloudCosXml/cosxml/src/main/java/com/tencent/cos/xml/transfer/COSXMLDownloadTask.java:271-276 | The task finds no record without a store. With a store, it finds one exactly when its current key is present. |
| DownloadPlan.Put | QCloudCosXml/cosxml/src/main/java/com/tencent/cos/xml/transfer/COSXMLDownloadTask.java:284-288 | After a save, the lookup under the key returns the saved path (null removes the key). Every other key reads as before. |
| DownloadPlan.Remove | QCloudCosXml/cosxml/src/main/java/com/tencent/cos/xml/transfer/COSXMLDownloadTask.java:278-282 | After a clear, the lookup under the key is null. Every other key reads as before. |
| Transfer.DownloadTask.Save | QCloudCosXml/cosxml/src/main/java/com/tencent/cos/xml/transfer/COSXMLDownloadTask.java:284-288 | After `save(p)`, `hasExisted()` returns p when there is a store, and null otherwise. |
| Transfer.DownloadTask.Clear | QCloudCosXml/cosxml/src/main/java/com/tencent/cos/xml/transfer/COSXMLDownloadTask.java:278-282 | After `clear()`, `hasExisted()` returns null. |
| DownloadPlan.StaleRecordInvisible | QCloudCosXml/cosxml/src/main/java/com/tencent/cos/xml/transfer/COSXMLDownloadTask.java:97-101 | A record saved under one ETag is not seen by a lookup under a differently rendered ETag. |
| Transfer.DownloadTask.UpdateState | QCloudCosXml/cosxml/src/main/java/com/tencent/cos/xml/transfer/COSXMLDownloadTask.java:196 | The gate accepts exactly the legal moves. It moves to the target when it accepts, and leaves the state alone otherwise. |
| Transfer.DownloadTask.Download | QCloudCosXml/cosxml/src/main/java/com/tencent/cos/xml/transfer/COSXMLDownloadTask.java:81-94 | Without a save directory, it fails and changes nothing. Otherwise it moves to Waiting if allowed and issues the HEAD probe. |
| Transfer.DownloadTask.OnHeadExecuting | QCloudCosXml/cosxml/src/main/java/com/tencent/cos/xml/transfer/COSXMLDownloadTask.java:86-93 | When the HEAD starts executing, the task moves to InProgress if that is allowed. |
| DownloadPlan.ResumeFrom | QCloudCosXml/cosxml/src/main/java/com/tencent/cos/xml/transfer/COSXMLDownloadTask.java:117-120 | `hasWriteDataLen` is L − fileOffset. The GET starts at `rangeStart + hasWriteDataLen` with the same `rangeEnd`. It writes at `fileOffset + hasWriteDataLen`, which equals L, even under wrap-around. |
| DownloadPlan.PlanAsWritten | QCloudCosXml/cosxml/src/main/java/com/tencent/cos/xml/transfer/COSXMLDownloadTask.java:101-126 | The decision exactly as written. No record means a fresh start over the original range. A record without a file means nothing happens. L equal to Content-Length means complete with (L, L). An unparsable Content-Length throws. Each of these four conditions is stated in both directions. Every remaining case resumes from L. |
| DownloadPlan.Plan | QCloudCosXml/cosxml/src/main/java/com/tencent/cos/xml/transfer/COSXMLDownloadTask.java:101-126 | The corrected decision never stalls. It starts afresh exactly when there is no record or the file is missing. It is complete exactly when L − fileOffset equals the length of the requested range. It throws exactly on an unparsable Content-Length. Every remaining case resumes as the source does. |
| DownloadPlan.PlanAgreesForWholeObject | QCloudCosXml/cosxml/src/main/java/com/tencent/cos/xml/transfer/COSXMLDownloadTask.java:105-120 | For a whole-object download at offset 0 whose recorded file exists, the corrected and as-written decisions coincide. |
| DownloadPlan.AsWrittenCompletesEarlyAtOffset | QCloudCosXml/cosxml/src/main/java/com/tencent/cos/xml/transfer/COSXMLDownloadTask.java:107 | As written, at an offset 0 < fileOffset < total, a file of length total counts as complete. Fewer than total bytes of the object are in it. |
| DownloadPlan.AsWrittenCompletesAlignedRange | QCloudCosXml/cosxml/src/main/java/com/tencent/cos/xml/transfer/COSXMLDownloadTask.java:107-110 | As written, an open range whose file offset equals its start, with a file as long as the object, is reported complete with length total. The intended decision also completes, with the total − rangeStart requested bytes, all of which are in the file. |
| DownloadPlan.AsWrittenRefetchesPastEnd | QCloudCosXml/cosxml/src/main/java/com/tencent/cos/xml/transfer/COSXMLDownloadTask.java:107-119 | As written, an open range from 0 < rangeStart < total whose bytes are all in the file resumes with a GET starting at total. |
| DownloadPlan.AsWrittenStallsWithoutFile | QCloudCosXml/cosxml/src/main/java/com/tencent/cos/xml/transfer/COSXMLDownloadTask.java:102-121 | As written, a record whose file is missing leads to no request and no state change. |
| DownloadPlan.PlanCompletesOnlyWhenWhole | QCloudCosXml/cosxml/src/main/java/com/tencent/cos/xml/transfer/COSXMLDownloadTask.java:105-116 | The corrected decision is complete exactly when every requested byte is in the file. |
| DownloadPlan.PlanRestartsWithoutFile | QCloudCosXml/cosxml/src/main/java/com/tencent/cos/xml/transfer/COSXMLDownloadTask.java:102-126 | The corrected decision treats a record with a missing file like no record: it saves the path and fetches the whole range. |
| DownloadPlan.ResumeFetchesTheRest | QCloudCosXml/cosxml/src/main/java/com/tencent/cos/xml/transfer/COSXMLDownloadTask.java:117-120 | A file short of the requested range resumes with a GET for exactly the missing bytes, written at L. The file then ends where the whole range would have ended. |
| DownloadPlan.ResumeAfterInterruption | QCloudCosXml/cosxml/src/main/java/com/tencent/cos/xml/transfer/COSXMLDownloadTask.java:117-120 | A 1000-byte object interrupted after 400 bytes resumes with bytes 400 onward, written at offset 400. |
| Transfer.DownloadTask.RealDownload | QCloudCosXml/cosxml/src/main/java/com/tencent/cos/xml/transfer/COSXMLDownloadTask.java:143-147 | The task holds a GET for exactly the given range and file offset. |
| Transfer.DownloadTask.ApplyPlan | QCloudCosXml/cosxml/src/main/java/com/tencent/cos/xml/transfer/COSXMLDownloadTask.java:101-126 | Carries out a decision. Throwing and stalling change nothing. A fresh start saves the path, sets the written count to 0, and issues that GET. A resume sets the written count and issues the residual GET. Complete issues no GET and always clears the record; when Completed is accepted it reports (n, n) once, then success. |
| Transfer.DownloadTask.OnHeadSuccess | QCloudCosXml/cosxml/src/main/java/com/tencent/cos/xml/transfer/COSXMLDownloadTask.java:96-127 | Like the source, the ETag is taken from the first ETag value, then `PlanAsWritten` is carried out. A record whose file is missing leaves store, count, GET, state and notices unchanged. If L equals Content-Length, no GET is issued and the record is cleared. When Completed is accepted, the listeners hear (L, L) once and then success. |
| Transfer.DownloadTask.OnHeadSuccessCorrected | QCloudCosXml/cosxml/src/main/java/com/tencent/cos/xml/transfer/COSXMLDownloadTask.java:96-127 | The same callback carrying out the corrected `Plan`. A record whose file is missing leads to a fresh start over the original range. |
| Transfer.DownloadTask.NotifyProgress | QCloudCosXml/cosxml/src/main/java/com/tencent/cos/xml/transfer/COSXMLDownloadTask.java:109-111 | A progress report is delivered only when a progress listener is registered. |
| Transfer.DownloadTask.NotifySuccess | QCloudCosXml/cosxml/src/main/java/com/tencent/cos/xml/transfer/COSXMLDownloadTask.java:112-114 | A success report is delivered only when a result listener is registered. |
| Transfer.DownloadTask.NotifyFailure | QCloudCosXml/cosxml/src/main/java/com/tencent/cos/xml/transfer/COSXMLDownloadTask.java:134-136 | A failure report is delivered only when a result listener is registered. |
| Transfer.Chosen | QCloudCosXml/cosxml/src/main/java/com/tencent/cos/xml/transfer/COSXMLDownloadTask.java:133 | The kept exception is the client exception when there is one, else the service exception. |
| Transfer.DownloadTask.OnHeadFail | QCloudCosXml/cosxml/src/main/java/com/tencent/cos/xml/transfer/COSXMLDownloadTask.java:130-138 | A HEAD failure never touches the record. When Failed is accepted, it keeps the exception and reports one failure. When rejected, it changes nothing. |
| DownloadPlan.ForwardProgress | QCloudCosXml/cosxml/src/main/java/com/tencent/cos/xml/transfer/COSXMLDownloadTask.java:153-156 | A chunk report (complete, target) is forwarded as (hasWriteDataLen + complete, hasWriteDataLen + target), exactly when no sum overflows. |
| DownloadPlan.ForwardAll | QCloudCosXml/cosxml/src/main/java/com/tencent/cos/xml/transfer/COSXMLDownloadTask.java:151-158 | A chunk's reports are forwarded one for one, in order. |
| DownloadPlan.ForwardAllKeepsOrder | QCloudCosXml/cosxml/src/main/java/com/tencent/cos/xml/transfer/COSXMLDownloadTask.java:153-156 | Non-decreasing chunk reports stay non-decreasing after the shift, unless a sum overflows. |
| Transfer.DownloadTask.OnGetProgress | QCloudCosXml/cosxml/src/main/java/com/tencent/cos/xml/transfer/COSXMLDownloadTask.java:151-158 | The listener hears the shifted report when one is registered. |
| Transfer.DownloadTask.OnGetSuccess | QCloudCosXml/cosxml/src/main/java/com/tencent/cos/xml/transfer/COSXMLDownloadTask.java:161-170 | When Completed is accepted, it records the result with the task's ETag, reports success once and clears the record. When rejected, it changes nothing. |
| Transfer.DownloadTask.OnGetFail | QCloudCosXml/cosxml/src/main/java/com/tencent/cos/xml/transfer/COSXMLDownloadTask.java:173-182 | When Failed is accepted, it keeps the exception, reports one failure and clears the record. When rejected, it changes nothing. |
| Transfer.DownloadTask.Pause | QCloudCosXml/cosxml/src/main/java/com/tencent/cos/xml/transfer/COSXMLDownloadTask.java:194-207 | When Paused is accepted, the record is kept. It also keeps a client exception "paused by user", reports it as a failure, and drops both requests. When rejected, it changes nothing. |
| Transfer.DownloadTask.Cancel | QCloudCosXml/cosxml/src/main/java/com/tencent/cos/xml/transfer/COSXMLDownloadTask.java:209-223 | When Canceled is accepted, it clears the record. It also keeps a client exception "cancelled by user", reports it as a failure, and drops both requests. When rejected, it changes nothing. |
| Transfer.DownloadTask.Resume | QCloudCosXml/cosxml/src/main/java/com/tencent/cos/xml/transfer/COSXMLDownloadTask.java:225-230 | When ResumedWaiting is accepted, `download()` runs again, with its parameter check and HEAD probe. When rejected, it changes nothing. The record is never touched. |
| InitMultipartUpload.InitMultipartUploadRequest.constructor | QCloudCosXml/cosxml/src/main/java/com/tencent/cos/xml/model/object/InitMultipartUploadRequest.java:29-31 | A new request has no bucket, key, path or method, and empty query and header maps. |
| InitMultipartUpload.InitMultipartUploadRequest.SetRequestQueryParams | QCloudCosXml/cosxml/src/main/java/com/tencent/cos/xml/model/object/InitMultipartUploadRequest.java:61-64 | The query map gains `uploads` with a null value. Nothing else changes. |
| InitMultipartUpload.InitMultipartUploadRequest.CheckParameters | QCloudCosXml/cosxml/src/main/java/com/tencent/cos/xml/model/object/InitMultipartUploadRequest.java:66-74 | The check passes exactly when bucket and key are both non-null. The bucket error takes precedence over the key error. |
| InitMultipartUpload.InitMultipartUploadRequest.SetRequestMethod | QCloudCosXml/cosxml/src/main/java/com/tencent/cos/xml/model/object/InitMultipartUploadRequest.java:76-79 | The method becomes POST. |
| InitMultipartUpload.NormalizePath | QCloudCosXml/cosxml/src/main/java/com/tencent/cos/xml/model/object/InitMultipartUploadRequest.java:82-90 | The path starts with `/`. It is the key itself exactly when the key starts with `/`, and `"/" + key` otherwise. |
| InitMultipartUpload.NormalizePathIdempotent | QCloudCosXml/cosxml/src/main/java/com/tencent/cos/xml/model/object/InitMultipartUploadRequest.java:82-90 | Normalising a normalised path changes nothing. |
| InitMultipartUpload.InitMultipartUploadRequest.SetRequestPath | QCloudCosXml/cosxml/src/main/java/com/tencent/cos/xml/model/object/InitMultipartUploadRequest.java:82-90 | The request path becomes the normalised key. A null key leaves it untouched. |
| InitMultipartUpload.InitMultipartUploadRequest.SetCosPath | QCloudCosXml/cosxml/src/main/java/com/tencent/cos/xml/model/object/InitMultipartUploadRequest.java:92-94 | The key becomes the given one. |
| InitMultipartUpload.PutIfPresent | QCloudCosXml/cosxml/src/main/java/com/tencent/cos/xml/model/object/InitMultipartUploadRequest.java:100-103 | A null value leaves the map unchanged. Otherwise the key maps to the value, and every other key is unchanged. |
| InitMultipartUpload.InitMultipartUploadRequest.SetCacheControl | QCloudCosXml/cosxml/src/main/java/com/tencent/cos/xml/model/object/InitMultipartUploadRequest.java:100-103 | Sets `Cache-Control` only when the value is non-null. |
| InitMultipartUpload.InitMultipartUploadRequest.SetContentDisposition | QCloudCosXml/cosxml/src/main/java/com/tencent/cos/xml/model/object/InitMultipartUploadRequest.java:105-108 | Sets `Content-Disposition` only when the value is non-null. |
| InitMultipartUpload.InitMultipartUploadRequest.SetContentEncodeing | QCloudCosXml/cosxml/src/main/java/com/tencent/cos/xml/model/object/InitMultipartUploadRequest.java:110-113 | Sets `Content-Encoding` only when the value is non-null. |
| InitMultipartUpload.InitMultipartUploadRequest.SetExpires | QCloudCosXml/cosxml/src/main/java/com/tencent/cos/xml/model/object/InitMultipartUploadRequest.java:115-118 | Sets `Expires` only when the value is non-null. |
| InitMultipartUpload.InitMultipartUploadRequest.SetXCOSMeta | QCloudCosXml/cosxml/src/main/java/com/tencent/cos/xml/model/object/InitMultipartUploadRequest.java:120-124 | Sets the named header only when both name and value are non-null. Otherwise it changes nothing. |
| InitMultipartUpload.InitMultipartUploadRequest.SetXCOSACL | QCloudCosXml/cosxml/src/main/java/com/tencent/cos/xml/model/object/InitMultipartUploadRequest.java:126-130 | Sets `x-cos-acl` only when the value is non-null. |
| InitMultipartUpload.InitMultipartUploadRequest.AppendGrants | QCloudCosXml/cosxml/src/main/java/com/tencent/cos/xml/model/object/InitMultipartUploadRequest.java:180-196 | The append loop builds exactly the entries joined by `,`. A null or empty list gives null. |
| InitMultipartUpload.InitMultipartUploadRequest.GetXCOSGrantForId | QCloudCosXml/cosxml/src/main/java/com/tencent/cos/xml/model/object/InitMultipartUploadRequest.java:162-178 | Returns `id="qcs::cam::x1",...,id="qcs::cam::xn"` in list order, or null for a null or empty list. |
| InitMultipartUpload.InitMultipartUploadRequest.GetXCOSGrantForUIN | QCloudCosXml/cosxml/src/main/java/com/tencent/cos/xml/model/object/InitMultipartUploadRequest.java:180-196 | Returns `uin="x1",...,uin="xn"` in list order, or null for a null or empty list. |
| InitMultipartUpload.GrantValue | QCloudCosXml/cosxml/src/main/java/com/tencent/cos/xml/model/object/InitMultipartUploadRequest.java:162-196 | The grant value is null exactly when the list is null or empty. |
| InitMultipartUpload.Entries | QCloudCosXml/cosxml/src/main/java/com/tencent/cos/xml/model/object/InitMultipartUploadRequest.java:167-173 | Entry i is the prefix, account i and a closing quote, one per account, in order. |
| Joining.TerminatedThenJoin | QCloudCosXml/cosxml/src/main/java/com/tencent/cos/xml/model/object/InitMultipartUploadRequest.java:185-191 | What the loop has appended, each entry followed by `,`, plus the join of the remaining entries, is the whole join. |
| InitMultipartUpload.StripEntry | QCloudCosXml/cosxml/src/main/java/com/tencent/cos/xml/model/object/InitMultipartUploadRequest.java:186-187 | An account read back from an entry rebuilds that entry. |
| InitMultipartUpload.StripAllEntries | QCloudCosXml/cosxml/src/main/java/com/tencent/cos/xml/model/object/InitMultipartUploadRequest.java:180-196 | Stripping the prefix and quote from every entry gives back the accounts. |
| Joining.SplitJoin | QCloudCosXml/cosxml/src/main/java/com/tencent/cos/xml/model/object/InitMultipartUploadRequest.java:180-196 | Splitting at `,` undoes joining, when no part contains `,`. |
| Joining.CountJoin | QCloudCosXml/cosxml/src/main/java/com/tencent/cos/xml/model/object/InitMultipartUploadRequest.java:180-196 | A join of n comma-free parts holds exactly n − 1 commas. |
| InitMultipartUpload.GrantRoundTrip | QCloudCosXml/cosxml/src/main/java/com/tencent/cos/xml/model/object/InitMultipartUploadRequest.java:162-196 | Take a non-empty list of comma-free accounts. Its grant value reads back to the same accounts in the same order, and holds exactly n − 1 commas. |
| InitMultipartUpload.GrantFormatsRoundTrip | QCloudCosXml/cosxml/src/main/java/com/tencent/cos/xml/model/object/InitMultipartUploadRequest.java:162-196 | Both the UIN and the CAM id format read back to their accounts. |
| InitMultipartUpload.GrantHeader | QCloudCosXml/cosxml/src/main/java/com/tencent/cos/xml/model/object/InitMultipartUploadRequest.java:212-222 | Grant types 0, 1 and 2 select the read, write and full-control headers. Every other grant type selects none. |
| InitMultipartUpload.GrantMessage | QCloudCosXml/cosxml/src/main/java/com/tencent/cos/xml/model/object/InitMultipartUploadRequest.java:206-211 | Id type 0 selects the UIN format, id type 1 the CAM id format, and any other id type null. |
| InitMultipartUpload.GrantFormatOfIdType | QCloudCosXml/cosxml/src/main/java/com/tencent/cos/xml/model/object/InitMultipartUploadRequest.java:206-211 | For a non-empty list, id type 1 yields a value starting with `id="qcs::cam::`, and id type 0 one starting with `uin="`. |
| InitMultipartUpload.ApplyGrant | QCloudCosXml/cosxml/src/main/java/com/tencent/cos/xml/model/object/InitMultipartUploadRequest.java:204-224 | A null list or an unknown grant type leaves the headers unchanged. Otherwise the chosen header maps to the message, possibly null, and no other header changes. |
| InitMultipartUpload.InitMultipartUploadRequest.SetXCOSGrant | QCloudCosXml/cosxml/src/main/java/com/tencent/cos/xml/model/object/InitMultipartUploadRequest.java:204-224 | The headers become `ApplyGrant` of the old headers. |
| InitMultipartUpload.InitMultipartUploadRequest.SetXCOSGrantReadWithUIN | QCloudCosXml/cosxml/src/main/java/com/tencent/cos/xml/model/object/InitMultipartUploadRequest.java:138-140 | Writes the read grant with id type 1, the CAM id format. |
| InitMultipartUpload.InitMultipartUploadRequest.SetXCOSGrantRead | QCloudCosXml/cosxml/src/main/java/com/tencent/cos/xml/model/object/InitMultipartUploadRequest.java:142-144 | Writes the read grant with id type 0, the UIN format. |
| InitMultipartUpload.InitMultipartUploadRequest.SetXCOSGrantWriteWithUIN | QCloudCosXml/cosxml/src/main/java/com/tencent/cos/xml/model/object/InitMultipartUploadRequest.java:146-148 | Writes the write grant with id type 1. |
| InitMultipartUpload.InitMultipartUploadRequest.SetXCOSGrantWrite | QCloudCosXml/cosxml/src/main/java/com/tencent/cos/xml/model/object/InitMultipartUploadRequest.java:150-152 | Writes the write grant with id type 0. |
| InitMultipartUpload.InitMultipartUploadRequest.SetXCOSReadWriteWithUIN | QCloudCosXml/cosxml/src/main/java/com/tencent/cos/xml/model/object/InitMultipartUploadRequest.java:154-156 | Writes the full-control grant with id type 1. |
| InitMultipartUpload.InitMultipartUploadRequest.SetXCOSReadWrite | QCloudCosXml/cosxml/src/main/java/com/tencent/cos/xml/model/object/InitMultipartUploadRequest.java:158-160 | Writes the full-control grant with id type 0. |

## Left out

- The asynchronous calls `headObjectAsync` and `getObjectAsync`, `cosXmlService.cancel`, and listener dispatch threads. These are network and concurrency plumbing. Their outcomes are the callback methods, a held request is a field, and dropping a request clears that field.
- `COSXMLTask` is not part of this model. `updateState` is the given predicate `legal`. The initial state is taken to be Waiting. So properties such as "a second `pause()` does nothing" hold only for a `legal` that rejects Paused to Paused.
- `CosXmlRequest` is not part of this model. Its `bucket` field and setter are a plain field and `SetBucket`. `super.checkParameters()` of the download task is not modelled.
- SHA-1 (`DigestUtils.getSha1`) is the abstract `digest`. The fallback to the unhashed text when hashing throws is left out.
- `Long.valueOf` accepts only the ASCII digits `0`-`9`. Java also accepts other Unicode decimal digits.
- The file system (`File.exists`, `File.length`, `mkdirs`) and Android `SharedPreferences`/`Context` are inputs and a map. Store I/O errors are not modelled.
- Request fields the download task only passes along are not modelled:
  - queries, headers, the signature source and the MD5 flag (`COSXMLDownloadTask.java:62-65`, `148-150`);
  - `buildCOSXMLTaskRequest`;
  - of `buildCOSXMLTaskResult`, everything but the HTTP code and the ETag.
- `Transfer.DownloadTask.OnHeadSuccess`: a listener call with the HEAD request and result objects is a `Success` notice with no payload.
- `InitMultipartUploadRequest.build()` is not modelled: it only feeds a request builder and serializers outside this model.
- The `COSACL` overload of `setXCOSACL` is not modelled: it is the string setter applied to `getACL()`.
- The constructor's `contentType`, and `getCosPath`, are not modelled.
- Listener setters are not modelled. Whether each listener is present is fixed when the task is built.
- `Transfer.DownloadTask.RealDownload`: the residual GET is assumed to carry the range it is given. The source sets that range (`COSXMLDownloadTask.java:146`) and then passes on the task's original headers (line 149). For a task built from a GET request, those headers include the caller's `Range` header. Whether that header then overrides the range depends on `CosXmlRequest`, which is not part of this model. `ResumeFetchesTheRest` rests on the same assumption.
- `InitMultipartUpload.GrantValue`: an account list is a `seq<string>`, so it cannot hold a null element. In the source, `StringBuilder.append(null)` writes such an element as `null` (`InitMultipartUploadRequest.java:169`, `187`).
- `ResponseBytesConverter`, `CompleteMultiUploadResult` and `GetObjectACLResult` are not modelled: they are thin wrappers and data holders.

## Findings

| source | as written | input that shows it | evidently intended | confidence | as-written member | corrected member |
|---|---|---|---|---|---|---|
| QCloudCosXml/cosxml/src/main/java/com/tencent/cos/xml/transfer/COSXMLDownloadTask.java:107 | The download counts as complete when the file length equals Content-Length, whatever `fileOffset` is. | fileOffset = 100, object of 1000 bytes, recorded file of length 1000. It reports complete with 900 of the 1000 bytes written. | Complete when L − fileOffset equals the length of the requested range. | medium, not executed | DownloadPlan.AsWrittenCompletesEarlyAtOffset | DownloadPlan.PlanCompletesOnlyWhenWhole |
| QCloudCosXml/cosxml/src/main/java/com/tencent/cos/xml/transfer/COSXMLDownloadTask.java:107-119 | The same test ignores `rangeStart` and `rangeEnd`. It is right only when `fileOffset` plus the length of the requested range is the object's size (as for `bytes=100-` with fileOffset = 100, `AsWrittenCompletesAlignedRange`); otherwise a finished partial range does not count as complete. | Range `bytes=100-` of a 1000-byte object with fileOffset = 0, file of length 900. It resumes with a GET from byte 1000, past the end. | Compare against the requested range, as above. | medium, not executed | DownloadPlan.AsWrittenRefetchesPastEnd | DownloadPlan.PlanCompletesOnlyWhenWhole |
| QCloudCosXml/cosxml/src/main/java/com/tencent/cos/xml/transfer/COSXMLDownloadTask.java:102-121 | A record whose file does not exist has no else branch. | A saved record whose partial file was deleted. No GET is issued, no state changes, and the task never finishes. | Start afresh, as with no record. | high, not executed | DownloadPlan.AsWrittenStallsWithoutFile | DownloadPlan.PlanRestartsWithoutFile |
