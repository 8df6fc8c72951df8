/**
 * The decisions of the resumable download task that do not depend on its
 * mutable state: reading the `Range` header, the resume fingerprint, the
 * local download path, the resume store's contents, what to do once the
 * HEAD probe has answered, and how chunk progress is offset. The task itself
 * (module Transfer) applies these to its fields.
 */
module DownloadPlan {
  import opened Wrappers
  import opened JavaText
  import opened Joining

  // ---------------------------------------------------------------------
  // The Range header of the originating GET request

  /** The exceptions the range parsing in the task's constructor can throw. */
  datatype RangeError =
    | NoRangeValue            // the header is present with an empty value list
    | RangeIndexOutOfBounds   // no '-' after the '=' for `substring` to end at
    | RangeNumberFormat       // a bound that `Long.valueOf` rejects

  /**
   * The `(rangeStart, rangeEnd)` pair read from the request's `Range` header
   * values (None when the header is absent): the text between the first `=`
   * and the first `-` is the first byte, the text after that `-`, when not
   * empty, the last byte, and -1 stands for an open end.
   */
  function ParseRangeHeader(ranges: Option<seq<string>>): (r: Result<(Long, Long), RangeError>)
    ensures ranges.None? ==> r == Ok((0, -1))
    ensures ranges == Some([]) ==> r == Err(NoRangeValue)
    ensures r.Ok? && ranges.Some? ==> ranges.value != [] && '-' in ranges.value[0]
  {
    match ranges
    case None => Ok((0, -1))
    case Some(values) =>
      if |values| == 0 then Err(NoRangeValue) else ParseRangeValue(values[0])
  }

  /** The first value of the header, read as described above. */
  function ParseRangeValue(range: string): (r: Result<(Long, Long), RangeError>)
    ensures r.Ok? ==> '-' in range
    ensures var eq := IndexOf(range, '='); var dash := IndexOf(range, '-');
            && (r == Err(RangeIndexOutOfBounds) <==> dash < eq + 1)
            && (r.Ok? ==>
                  ParseLong(range[eq + 1..dash]) == Some(r.value.0)
                  && (|range[dash + 1..]| == 0 ==> r.value.1 == -1)
                  && (|range[dash + 1..]| > 0 ==> ParseLong(range[dash + 1..]) == Some(r.value.1)))
  {
    var eq := IndexOf(range, '=');
    var dash := IndexOf(range, '-');
    if dash < eq + 1 then Err(RangeIndexOutOfBounds)
    else
      match ParseLong(range[eq + 1..dash])
      case None => Err(RangeNumberFormat)
      case Some(first) =>
        var end := range[dash + 1..];
        if |end| == 0 then Ok((first, -1))
        else
          match ParseLong(end)
          case None => Err(RangeNumberFormat)
          case Some(last) => Ok((first, last))
  }

  /** The header value `bytes=first-` or `bytes=first-last` (a byte-range-spec of RFC 7233, section 2.1). */
  function ByteRangeSpec(first: Long, last: Option<Long>): string {
    "bytes=" + LongToString(first) + "-" + (if last.Some? then LongToString(last.value) else "")
  }

  /** Where `=` and the first `-` fall in `bytes=digits-tail`, and what lies between and after them. */
  lemma ByteRangeLayout(digits: string, tail: string)
    requires |digits| > 0 && AllDigits(digits)
    ensures var range := "bytes=" + digits + "-" + tail;
            IndexOf(range, '=') == 5 && IndexOf(range, '-') == 6 + |digits|
            && range[6..6 + |digits|] == digits && range[7 + |digits|..] == tail
  {
    var range := "bytes=" + digits + "-" + tail;
    IndexOfIs(range, '=', 5);
    forall j | 0 <= j < 6 + |digits| ensures range[j] != '-' {
      if j >= 6 {
        assert range[j] == digits[j - 6];
      }
    }
    IndexOfIs(range, '-', 6 + |digits|);
  }

  /** Reading a header written as `bytes=a-b` gives (a, b); written as `bytes=a-` it gives (a, -1). */
  lemma ParseByteRangeSpec(first: Long, last: Option<Long>, more: seq<string>)
    requires 0 <= first
    ensures ParseRangeHeader(Some([ByteRangeSpec(first, last)] + more))
         == Ok((first, if last.Some? then last.value else -1))
  {
    var digits := LongToString(first);
    var tail := if last.Some? then LongToString(last.value) else "";
    ByteRangeLayout(digits, tail);
    ParseLongToString(first);
    if last.Some? {
      ParseLongToString(last.value);
    }
    assert ([ByteRangeSpec(first, last)] + more)[0] == "bytes=" + digits + "-" + tail;
  }

  /** A suffix range `bytes=-n` (the last n bytes) is not understood: `Long.valueOf("")` throws. */
  lemma SuffixRangeRejected(n: Long)
    requires 0 <= n
    ensures ParseRangeHeader(Some(["bytes=-" + LongToString(n)])) == Err(RangeNumberFormat)
  {
    var range := "bytes=-" + LongToString(n);
    IndexOfIs(range, '=', 5);
    IndexOfIs(range, '-', 6);
    assert range[6..6] == "";
    assert ParseRangeHeader(Some([range])) == ParseRangeValue(range);
  }

  // ---------------------------------------------------------------------
  // The resume fingerprint

  /** The fields that identify one download and key its resume record. */
  datatype Identity = Identity(
    region: Option<string>,
    bucket: Option<string>,
    cosPath: Option<string>,
    rangeStart: Long,
    rangeEnd: Long,
    fileOffset: Long,
    localSaveDirPath: Option<string>,
    localSaveFileName: Option<string>,
    eTag: Option<string>)

  /** The ten strings the key is built from, in the order they are appended. */
  function KeyFields(id: Identity): (r: seq<string>)
    ensures |r| == 10 && r[0] == "download" && r[9] == Show(id.eTag)
  {
    ["download", Show(id.region), Show(id.bucket), Show(id.cosPath),
     LongToString(id.rangeStart), LongToString(id.rangeEnd), LongToString(id.fileOffset),
     Show(id.localSaveDirPath), Show(id.localSaveFileName), Show(id.eTag)]
  }

  /** The text that is hashed: the fields joined by `_`, from "download_" to the ETag. */
  function KeySource(id: Identity): (r: string)
    ensures StartsWith(r, "download_")
    ensures EndsWith(r, "_" + Show(id.eTag))
  {
    var fields := KeyFields(id);
    JoinEndsWith(fields, '_');
    assert Join(fields, '_') == "download" + "_" + Join(fields[1..], '_');
    assert fields[|fields| - 1] == Show(id.eTag);
    Join(fields, '_')
  }

  /**
   * The resume key: the digest (SHA-1 in the source) of the key source.
   * Under an injective digest only identities with the same key source share it.
   */
  function Key(digest: string -> string, id: Identity): (r: string)
    ensures Injective(digest) ==>
              forall other: Identity :: digest(KeySource(other)) == r ==> KeySource(other) == KeySource(id)
  {
    digest(KeySource(id))
  }

  ghost predicate Injective(digest: string -> string) {
    forall a, b :: digest(a) == digest(b) ==> a == b
  }

  /** Under an injective digest, identities whose key fields differ at one position have different keys. */
  lemma KeyDiffersAt(digest: string -> string, a: Identity, b: Identity, k: nat)
    requires Injective(digest)
    requires k < 10
    requires forall i :: 0 <= i < 10 && i != k ==> KeyFields(a)[i] == KeyFields(b)[i]
    requires KeyFields(a)[k] != KeyFields(b)[k]
    ensures Key(digest, a) != Key(digest, b)
  {
    JoinDiffersAt(KeyFields(a), KeyFields(b), '_', k);
  }

  /** A changed ETag gives a different key, so a record saved under the old ETag is not found. */
  lemma KeyDiffersOnETag(digest: string -> string, id: Identity, eTag: Option<string>)
    requires Injective(digest)
    requires Show(id.eTag) != Show(eTag)
    ensures Key(digest, id) != Key(digest, id.(eTag := eTag))
  {
    KeyDiffersAt(digest, id, id.(eTag := eTag), 9);
  }

  /** A changed first byte gives a different key. */
  lemma KeyDiffersOnRangeStart(digest: string -> string, id: Identity, rangeStart: Long)
    requires Injective(digest)
    requires id.rangeStart != rangeStart
    ensures Key(digest, id) != Key(digest, id.(rangeStart := rangeStart))
  {
    LongToStringInjective(id.rangeStart, rangeStart);
    KeyDiffersAt(digest, id, id.(rangeStart := rangeStart), 4);
  }

  /** A changed file offset gives a different key. */
  lemma KeyDiffersOnFileOffset(digest: string -> string, id: Identity, fileOffset: Long)
    requires Injective(digest)
    requires id.fileOffset != fileOffset
    ensures Key(digest, id) != Key(digest, id.(fileOffset := fileOffset))
  {
    LongToStringInjective(id.fileOffset, fileOffset);
    KeyDiffersAt(digest, id, id.(fileOffset := fileOffset), 6);
  }

  /** A missing ETag and the ETag text "null" render alike, so they share a key. */
  lemma NullETagSharesKey(digest: string -> string, id: Identity)
    ensures Key(digest, id.(eTag := None)) == Key(digest, id.(eTag := Some("null")))
  {
  }

  // ---------------------------------------------------------------------
  // The local download path

  /** The directory with a `/` appended unless it already ends in one. */
  function WithTrailingSlash(dir: string): (r: string)
    ensures EndsWith(r, "/")
    ensures EndsWith(dir, "/") ==> r == dir
    ensures !EndsWith(dir, "/") ==> r == dir + "/"
  {
    if EndsWith(dir, "/") then dir else dir + "/"
  }

  /** The part of an object key after its last `/` (all of it when there is none). */
  function LastSegment(cosPath: string): (r: string)
    ensures '/' !in r
    ensures EndsWith(cosPath, r)
    ensures '/' in cosPath ==> |r| < |cosPath| && cosPath[|cosPath| - |r| - 1] == '/'
    ensures '/' !in cosPath ==> r == cosPath
  {
    var separator := LastIndexOf(cosPath, '/');
    if separator >= 0 then cosPath[separator + 1..] else cosPath
  }

  /** Where the object is saved: null without a directory, else the directory, a `/`, and the file name. */
  function DownloadPath(dir: Option<string>, fileName: Option<string>, cosPath: Option<string>): (r: Option<string>)
    ensures r.None? <==> dir.None?
    ensures dir.Some? && fileName.Some? ==> r == Some(WithTrailingSlash(dir.value) + fileName.value)
    ensures dir.Some? && fileName.None? && cosPath.Some?
         ==> r == Some(WithTrailingSlash(dir.value) + LastSegment(cosPath.value))
    ensures dir.Some? && fileName.None? && cosPath.None? ==> r == Some(WithTrailingSlash(dir.value))
  {
    match dir
    case None => None
    case Some(d) =>
      var path := WithTrailingSlash(d);
      if fileName.Some? then Some(path + fileName.value)
      else if cosPath.Some? then Some(path + LastSegment(cosPath.value))
      else Some(path)
  }

  // ---------------------------------------------------------------------
  // The resume store (SharedPreferences; absent when the task had no Context)

  /** `hasExisted()`: the saved path under `key`, or null. */
  function Lookup(hasStore: bool, prefs: map<string, string>, key: string): (r: Option<string>)
    ensures !hasStore ==> r.None?
    ensures hasStore ==> (r.Some? <==> key in prefs)
  {
    if hasStore && key in prefs then Some(prefs[key]) else None
  }

  /** `save(path)`: `putString(key, path)`, which removes the key when the path is null. */
  function Put(hasStore: bool, prefs: map<string, string>, key: string, path: Option<string>): (r: map<string, string>)
    ensures Lookup(hasStore, r, key) == (if hasStore then path else None)
    ensures forall k :: k != key ==> Lookup(hasStore, r, k) == Lookup(hasStore, prefs, k)
  {
    if !hasStore then prefs
    else if path.Some? then prefs[key := path.value]
    else prefs - {key}
  }

  /** `clear()`: removes the key. */
  function Remove(hasStore: bool, prefs: map<string, string>, key: string): (r: map<string, string>)
    ensures Lookup(hasStore, r, key).None?
    ensures forall k :: k != key ==> Lookup(hasStore, r, k) == Lookup(hasStore, prefs, k)
  {
    if hasStore then prefs - {key} else prefs
  }

  /** A record saved under one ETag is invisible to a lookup under a differently rendered ETag. */
  lemma StaleRecordInvisible(digest: string -> string, hasStore: bool, prefs: map<string, string>,
                             id: Identity, eTag: Option<string>, path: Option<string>)
    requires Injective(digest)
    requires Show(id.eTag) != Show(eTag)
    ensures Lookup(hasStore, Put(hasStore, prefs, Key(digest, id), path), Key(digest, id.(eTag := eTag)))
         == Lookup(hasStore, prefs, Key(digest, id.(eTag := eTag)))
  {
    KeyDiffersOnETag(digest, id, eTag);
  }

  // ---------------------------------------------------------------------
  // What to do once the HEAD probe succeeded

  /** What the task learns before deciding: the stored record, and the file at that path. */
  datatype Probe = Probe(
    record: Option<string>,                // hasExisted()
    fileExists: bool,                      // File.exists() of the recorded path
    fileLength: Long,                      // File.length() of the recorded path
    contentLengths: Option<seq<string>>)   // the HEAD response's Content-Length values

  /** The bounds and file offset of a ranged GET. */
  datatype GetRange = GetRange(rangeStart: Long, rangeEnd: Long, fileOffset: Long)

  datatype HeadPlan =
    | AlreadyComplete(length: Long)                  // no GET; report (length, length), clear the record
    | Resume(written: Long, get: GetRange)           // keep the record, GET only the residual range
    | FreshStart(path: Option<string>, get: GetRange) // save the path, GET the whole requested range
    | Stalled                                        // nothing is issued and nothing changes
    | BadContentLength                               // `Long.valueOf` threw on the Content-Length

  /**
   * Continue after `fileLength` bytes are already in the file: the bytes
   * written so far are those past `fileOffset`, the GET starts that many
   * bytes after `rangeStart`, keeps `rangeEnd`, and writes at the end of the file.
   */
  function ResumeFrom(fileLength: Long, rangeStart: Long, rangeEnd: Long, fileOffset: Long): (p: HeadPlan)
    ensures p.Resume?
    ensures p.written == Wrap(fileLength - fileOffset)
    ensures p.get.fileOffset == fileLength
    ensures p.get.rangeEnd == rangeEnd
    ensures p.get.rangeStart == Wrap(rangeStart + fileLength - fileOffset)
    ensures MIN_LONG <= fileLength - fileOffset && rangeStart + fileLength - fileOffset <= MAX_LONG
         && MIN_LONG <= rangeStart + fileLength - fileOffset && fileLength - fileOffset <= MAX_LONG
         ==> p.written == fileLength - fileOffset && p.get.rangeStart == rangeStart + p.written
  {
    var written := Wrap(fileLength - fileOffset);
    AddWrappedDifference(fileOffset, fileLength);
    AddWrapped(rangeStart, fileLength - fileOffset);
    Resume(written, GetRange(Wrap(rangeStart + written), rangeEnd, Wrap(fileOffset + written)))
  }

  /**
   * The decision of the HEAD-success callback exactly as the source makes it:
   * the download counts as complete when the file's length equals the
   * Content-Length, and a record whose file is gone leads nowhere.
   */
  function PlanAsWritten(probe: Probe, rangeStart: Long, rangeEnd: Long, fileOffset: Long,
                         downloadPath: Option<string>): (p: HeadPlan)
    ensures probe.record.None? <==> p.FreshStart?
    ensures p.FreshStart? ==> p == FreshStart(downloadPath, GetRange(rangeStart, rangeEnd, fileOffset))
    ensures p.Stalled? <==> probe.record.Some? && !probe.fileExists
    ensures p.AlreadyComplete? <==>
              probe.record.Some? && probe.fileExists && probe.contentLengths.Some?
              && |probe.contentLengths.value| > 0
              && ParseLong(probe.contentLengths.value[0]) == Some(probe.fileLength)
    ensures p.AlreadyComplete? ==> p.length == probe.fileLength
    ensures p.BadContentLength? <==>
              probe.record.Some? && probe.fileExists && probe.contentLengths.Some?
              && |probe.contentLengths.value| > 0
              && ParseLong(probe.contentLengths.value[0]).None?
    ensures p.Resume? ==> p == ResumeFrom(probe.fileLength, rangeStart, rangeEnd, fileOffset)
  {
    if probe.record.None? then FreshStart(downloadPath, GetRange(rangeStart, rangeEnd, fileOffset))
    else if !probe.fileExists then Stalled
    else if probe.contentLengths.Some? && |probe.contentLengths.value| > 0 then
      match ParseLong(probe.contentLengths.value[0])
      case None => BadContentLength
      case Some(total) =>
        if total == probe.fileLength then AlreadyComplete(probe.fileLength)
        else ResumeFrom(probe.fileLength, rangeStart, rangeEnd, fileOffset)
    else ResumeFrom(probe.fileLength, rangeStart, rangeEnd, fileOffset)
  }

  /**
   * How many bytes the requested range of an object of `total` bytes holds:
   * from `rangeStart` to `rangeEnd` inclusive, or to the end of the object
   * when `rangeEnd` is -1 or past it (RFC 7233, section 2.1).
   */
  function ExpectedLength(total: Long, rangeStart: Long, rangeEnd: Long): int {
    (if rangeEnd == -1 || rangeEnd >= total then total else rangeEnd + 1) - rangeStart
  }

  /**
   * The decision as evidently intended: complete when the bytes written past
   * `fileOffset` are exactly the requested range, and a record whose file is
   * gone is treated like no record.
   */
  function Plan(probe: Probe, rangeStart: Long, rangeEnd: Long, fileOffset: Long,
                downloadPath: Option<string>): (p: HeadPlan)
    ensures !p.Stalled?
    ensures p.FreshStart? <==> probe.record.None? || !probe.fileExists
    ensures p.AlreadyComplete? <==>
              probe.record.Some? && probe.fileExists && probe.contentLengths.Some?
              && |probe.contentLengths.value| > 0
              && ParseLong(probe.contentLengths.value[0]).Some?
              && probe.fileLength - fileOffset
                 == ExpectedLength(ParseLong(probe.contentLengths.value[0]).value, rangeStart, rangeEnd)
    ensures p.AlreadyComplete? ==> p.length == Wrap(probe.fileLength - fileOffset)
    ensures p.BadContentLength? <==>
              probe.record.Some? && probe.fileExists && probe.contentLengths.Some?
              && |probe.contentLengths.value| > 0
              && ParseLong(probe.contentLengths.value[0]).None?
    ensures p.FreshStart? ==> p == FreshStart(downloadPath, GetRange(rangeStart, rangeEnd, fileOffset))
    ensures p.Resume? ==> p == ResumeFrom(probe.fileLength, rangeStart, rangeEnd, fileOffset)
  {
    if probe.record.None? || !probe.fileExists then
      FreshStart(downloadPath, GetRange(rangeStart, rangeEnd, fileOffset))
    else if probe.contentLengths.Some? && |probe.contentLengths.value| > 0 then
      match ParseLong(probe.contentLengths.value[0])
      case None => BadContentLength
      case Some(total) =>
        if probe.fileLength - fileOffset == ExpectedLength(total, rangeStart, rangeEnd) then
          AlreadyComplete(Wrap(probe.fileLength - fileOffset))
        else ResumeFrom(probe.fileLength, rangeStart, rangeEnd, fileOffset)
    else ResumeFrom(probe.fileLength, rangeStart, rangeEnd, fileOffset)
  }

  /** For a whole-object download at offset 0 of a file that exists, the two decisions agree. */
  lemma PlanAgreesForWholeObject(probe: Probe, downloadPath: Option<string>)
    requires probe.record.None? || probe.fileExists
    ensures Plan(probe, 0, -1, 0, downloadPath) == PlanAsWritten(probe, 0, -1, 0, downloadPath)
  {
  }

  /**
   * As written, a download at a non-zero file offset counts as complete when
   * the file is as long as the object, although only `total - fileOffset` of
   * the object's `total` bytes are in it.
   */
  lemma AsWrittenCompletesEarlyAtOffset(total: Long, fileOffset: Long, record: string, downloadPath: Option<string>)
    requires 0 < fileOffset < total
    ensures var probe := Probe(Some(record), true, total, Some([LongToString(total)]));
            PlanAsWritten(probe, 0, -1, fileOffset, downloadPath) == AlreadyComplete(total)
            && total - fileOffset < ExpectedLength(total, 0, -1)
  {
    ParseLongToString(total);
  }

  /**
   * As written, a download of an open range from `rangeStart > 0` that has
   * every requested byte is not recognised as complete: it issues a GET that
   * starts at the end of the object.
   */
  lemma AsWrittenRefetchesPastEnd(total: Long, rangeStart: Long, record: string, downloadPath: Option<string>)
    requires 0 < rangeStart < total
    ensures var probe := Probe(Some(record), true, total - rangeStart, Some([LongToString(total)]));
            var p := PlanAsWritten(probe, rangeStart, -1, 0, downloadPath);
            total - rangeStart == ExpectedLength(total, rangeStart, -1)
            && p.Resume? && p.get.rangeStart == total
  {
    ParseLongToString(total);
  }

  /**
   * As written, an open range whose file offset equals its start is judged
   * correctly: a file as long as the object holds every requested byte, and
   * both decisions report the download complete, the corrected one with the
   * requested length.
   */
  lemma AsWrittenCompletesAlignedRange(total: Long, rangeStart: Long, record: string, downloadPath: Option<string>)
    requires 0 <= rangeStart <= total
    ensures var probe := Probe(Some(record), true, total, Some([LongToString(total)]));
            total - rangeStart == ExpectedLength(total, rangeStart, -1)
            && PlanAsWritten(probe, rangeStart, -1, rangeStart, downloadPath) == AlreadyComplete(total)
            && Plan(probe, rangeStart, -1, rangeStart, downloadPath) == AlreadyComplete(total - rangeStart)
  {
    ParseLongToString(total);
  }

  /** As written, a record whose file has disappeared stalls the download: no GET, no completion. */
  lemma AsWrittenStallsWithoutFile(probe: Probe, rangeStart: Long, rangeEnd: Long, fileOffset: Long,
                                   downloadPath: Option<string>)
    requires probe.record.Some? && !probe.fileExists
    ensures PlanAsWritten(probe, rangeStart, rangeEnd, fileOffset, downloadPath) == Stalled
  {
  }

  /** The intended decision completes exactly when every requested byte is in the file. */
  lemma PlanCompletesOnlyWhenWhole(probe: Probe, rangeStart: Long, rangeEnd: Long, fileOffset: Long,
                                   downloadPath: Option<string>, total: Long)
    requires probe.record.Some? && probe.fileExists
    requires probe.contentLengths == Some([LongToString(total)])
    ensures Plan(probe, rangeStart, rangeEnd, fileOffset, downloadPath).AlreadyComplete?
        <==> probe.fileLength - fileOffset == ExpectedLength(total, rangeStart, rangeEnd)
  {
    ParseLongToString(total);
  }

  /**
   * When the file holds fewer bytes than requested and no sum overflows, the
   * resumed GET asks for exactly the missing bytes, and once it has written
   * them the file ends where the whole requested range would have ended.
   */
  lemma ResumeFetchesTheRest(probe: Probe, rangeStart: Long, rangeEnd: Long, fileOffset: Long,
                             downloadPath: Option<string>, total: Long)
    requires probe.record.Some? && probe.fileExists
    requires probe.contentLengths == Some([LongToString(total)])
    requires 0 <= rangeStart && 0 <= fileOffset <= probe.fileLength
    requires rangeStart + probe.fileLength - fileOffset <= MAX_LONG
    requires probe.fileLength - fileOffset < ExpectedLength(total, rangeStart, rangeEnd)
    ensures var p := Plan(probe, rangeStart, rangeEnd, fileOffset, downloadPath);
            p.Resume? && p.written == probe.fileLength - fileOffset
            && p.get == GetRange(rangeStart + p.written, rangeEnd, probe.fileLength)
            && ExpectedLength(total, p.get.rangeStart, p.get.rangeEnd)
               == ExpectedLength(total, rangeStart, rangeEnd) - p.written
            && p.get.fileOffset + ExpectedLength(total, p.get.rangeStart, p.get.rangeEnd)
               == fileOffset + ExpectedLength(total, rangeStart, rangeEnd)
  {
    ParseLongToString(total);
  }

  /** The intended decision restarts from the whole range when the recorded file is gone. */
  lemma PlanRestartsWithoutFile(probe: Probe, rangeStart: Long, rangeEnd: Long, fileOffset: Long,
                                downloadPath: Option<string>)
    requires probe.record.Some? && !probe.fileExists
    ensures Plan(probe, rangeStart, rangeEnd, fileOffset, downloadPath)
         == FreshStart(downloadPath, GetRange(rangeStart, rangeEnd, fileOffset))
  {
  }

  /**
   * A 1000-byte object, interrupted after 400 bytes and restarted with the
   * same parameters, asks for the bytes from 400 on and writes them at 400.
   */
  lemma ResumeAfterInterruption(record: string, downloadPath: Option<string>)
    ensures var probe := Probe(Some(record), true, 400, Some([LongToString(1000)]));
            Plan(probe, 0, -1, 0, downloadPath) == Resume(400, GetRange(400, -1, 400))
  {
    ParseLongToString(1000);
  }

  // ---------------------------------------------------------------------
  // Progress of the ranged GET

  /** What the listener hears for a chunk report `(complete, target)`. */
  function ForwardProgress(written: Long, complete: Long, target: Long): (r: (Long, Long))
    ensures MIN_LONG <= written + complete <= MAX_LONG ==> r.0 == written + complete
    ensures MIN_LONG <= written + target <= MAX_LONG ==> r.1 == written + target
  {
    (Wrap(written + complete), Wrap(written + target))
  }

  /** Reports of one chunk, forwarded one by one. */
  function ForwardAll(written: Long, reports: seq<(Long, Long)>): (r: seq<(Long, Long)>)
    ensures |r| == |reports|
    ensures forall i :: 0 <= i < |r| ==> r[i] == ForwardProgress(written, reports[i].0, reports[i].1)
  {
    if |reports| == 0 then []
    else [ForwardProgress(written, reports[0].0, reports[0].1)] + ForwardAll(written, reports[1..])
  }

  predicate NonDecreasing(reports: seq<(Long, Long)>) {
    forall i, j :: 0 <= i <= j < |reports| ==> reports[i].0 <= reports[j].0
  }

  /** Forwarding keeps the order of a chunk's reports, as long as no sum overflows. */
  lemma ForwardAllKeepsOrder(written: Long, reports: seq<(Long, Long)>)
    requires NonDecreasing(reports)
    requires forall i :: 0 <= i < |reports| ==> MIN_LONG <= written + reports[i].0 <= MAX_LONG
    ensures NonDecreasing(ForwardAll(written, reports))
  {
    var r := ForwardAll(written, reports);
    forall i, j | 0 <= i <= j < |r| ensures r[i].0 <= r[j].0 {
      assert r[i].0 == written + reports[i].0;
      assert r[j].0 == written + reports[j].0;
    }
  }
}
