/**
 * The request that initiates a multipart upload: its path, query, method and
 * parameter check, and the setters that put headers into its header map,
 * among them the ACL grant headers built from account lists.
 */
module InitMultipartUpload {
  import opened Wrappers
  import opened JavaText
  import opened Joining

  /** A string-to-string map, as used for headers and query parameters; like Java's HashMap it admits null values. */
  type StringMap = map<string, Option<string>>

  const POST := "POST"
  const UPLOADS := "uploads"
  const GRANT_READ := "x-cos-grant-read"
  const GRANT_WRITE := "x-cos-grant-write"
  const GRANT_FULL_CONTROL := "x-cos-grant-full-control"
  /** What each entry of the old-style grant format starts with. */
  const UIN_PREFIX := "uin=\""
  /** What each entry of the CAM-style grant format starts with. */
  const ID_PREFIX := "id=\"qcs::cam::"

  datatype ParameterError = BucketMustNotBeNull | CosPathMustNotBeNull

  /** The request path for an object key: the key with a leading `/` added when it lacks one. */
  function NormalizePath(cosPath: string): (r: string)
    ensures |r| > 0 && r[0] == '/'
    ensures r == cosPath || r == "/" + cosPath
    ensures r == cosPath <==> StartsWith(cosPath, "/")
  {
    if StartsWith(cosPath, "/") then cosPath else "/" + cosPath
  }

  /** Normalising a request path again changes nothing. */
  lemma NormalizePathIdempotent(cosPath: string)
    ensures NormalizePath(NormalizePath(cosPath)) == NormalizePath(cosPath)
  {
    var r := NormalizePath(cosPath);
    assert r[..1] == "/";
  }

  /** `h` with `key` mapped to `value` when the value is non-null, else `h` itself. */
  function PutIfPresent(h: StringMap, key: string, value: Option<string>): (r: StringMap)
    ensures value.None? ==> r == h
    ensures value.Some? ==> key in r && r[key] == value
    ensures forall k :: k != key ==> (k in r <==> k in h) && (k in h ==> r[k] == h[k])
  {
    if value.None? then h else h[key := value]
  }

  /** One grant entry: the prefix, the account, and a closing quote. */
  function Entry(prefix: string, account: string): string {
    prefix + account + "\""
  }

  function Entries(prefix: string, accounts: seq<string>): (r: seq<string>)
    ensures |r| == |accounts|
    ensures forall i :: 0 <= i < |r| ==> r[i] == Entry(prefix, accounts[i])
  {
    seq(|accounts|, i requires 0 <= i < |accounts| => Entry(prefix, accounts[i]))
  }

  /** The grant header value for an account list: its entries joined by `,`, or null for none. */
  function GrantValue(prefix: string, accounts: Option<seq<string>>): (r: Option<string>)
    ensures r.None? <==> accounts.None? || accounts.value == []
  {
    if accounts.None? || accounts.value == [] then None
    else Some(Join(Entries(prefix, accounts.value), ','))
  }

  /** The old-style grant value `uin="x1",...,uin="xn"`. */
  function GrantForUIN(accounts: Option<seq<string>>): Option<string> {
    GrantValue(UIN_PREFIX, accounts)
  }

  /** The CAM-style grant value `id="qcs::cam::x1",...,id="qcs::cam::xn"`. */
  function GrantForId(accounts: Option<seq<string>>): Option<string> {
    GrantValue(ID_PREFIX, accounts)
  }

  /** The account inside one entry, if the entry has the prefix and the closing quote. */
  function StripEntry(prefix: string, entry: string): (r: Option<string>)
    ensures r.Some? ==> entry == Entry(prefix, r.value)
  {
    if |entry| >= |prefix| + 1 && entry[..|prefix|] == prefix && entry[|entry| - 1] == '"' then
      assert entry == entry[..|prefix|] + entry[|prefix|..|entry| - 1] + [entry[|entry| - 1]];
      Some(entry[|prefix|..|entry| - 1])
    else None
  }

  function StripAll(prefix: string, entries: seq<string>): (r: Option<seq<string>>)
    ensures r.Some? ==> |r.value| == |entries|
  {
    if |entries| == 0 then Some([])
    else
      match StripEntry(prefix, entries[0])
      case None => None
      case Some(account) =>
        match StripAll(prefix, entries[1..])
        case None => None
        case Some(rest) => Some([account] + rest)
  }

  /** Reading the accounts back out of a grant value. */
  function ParseGrant(prefix: string, value: string): Option<seq<string>> {
    StripAll(prefix, SplitOn(value, ','))
  }

  lemma {:induction false} StripAllEntries(prefix: string, accounts: seq<string>)
    ensures StripAll(prefix, Entries(prefix, accounts)) == Some(accounts)
  {
    if |accounts| > 0 {
      var e := Entry(prefix, accounts[0]);
      assert e[..|prefix|] == prefix;
      assert e[|prefix|..|e| - 1] == accounts[0];
      assert StripEntry(prefix, e) == Some(accounts[0]);
      StripAllEntries(prefix, accounts[1..]);
      var es := Entries(prefix, accounts);
      assert es[0] == e;
      assert es[1..] == Entries(prefix, accounts[1..]);
      assert accounts == [accounts[0]] + accounts[1..];
    }
  }

  /**
   * A grant value lists the accounts in order and can be read back, when no
   * account contains a comma: its entries are its comma-separated pieces,
   * and there are exactly n - 1 commas for n accounts.
   */
  lemma GrantRoundTrip(prefix: string, accounts: seq<string>)
    requires accounts != []
    requires ',' !in prefix
    requires forall i :: 0 <= i < |accounts| ==> ',' !in accounts[i]
    ensures GrantValue(prefix, Some(accounts)).Some?
    ensures ParseGrant(prefix, GrantValue(prefix, Some(accounts)).value) == Some(accounts)
    ensures Count(GrantValue(prefix, Some(accounts)).value, ',') == |accounts| - 1
  {
    var es := Entries(prefix, accounts);
    forall i | 0 <= i < |es| ensures ',' !in es[i] {
      assert es[i] == prefix + accounts[i] + "\"";
    }
    SplitJoin(es, ',');
    CountJoin(es, ',');
    StripAllEntries(prefix, accounts);
  }

  /** Both grant formats satisfy the round trip: neither prefix holds a comma. */
  lemma GrantFormatsRoundTrip(accounts: seq<string>)
    requires accounts != []
    requires forall i :: 0 <= i < |accounts| ==> ',' !in accounts[i]
    ensures ParseGrant(UIN_PREFIX, GrantForUIN(Some(accounts)).value) == Some(accounts)
    ensures ParseGrant(ID_PREFIX, GrantForId(Some(accounts)).value) == Some(accounts)
  {
    GrantRoundTrip(UIN_PREFIX, accounts);
    GrantRoundTrip(ID_PREFIX, accounts);
  }

  /** The header a grant type writes: 0 read, 1 write, 2 full control, anything else none. */
  function GrantHeader(grantType: int): (r: Option<string>)
    ensures 0 <= grantType <= 2 <==> r.Some?
    ensures grantType == 0 ==> r == Some(GRANT_READ)
    ensures grantType == 1 ==> r == Some(GRANT_WRITE)
    ensures grantType == 2 ==> r == Some(GRANT_FULL_CONTROL)
  {
    if grantType == 0 then Some(GRANT_READ)
    else if grantType == 1 then Some(GRANT_WRITE)
    else if grantType == 2 then Some(GRANT_FULL_CONTROL)
    else None
  }

  /** The grant value an id type selects: 0 the UIN format, 1 the CAM id format, anything else null. */
  function GrantMessage(accounts: seq<string>, idType: int): (r: Option<string>)
    ensures idType == 0 ==> r == GrantForUIN(Some(accounts))
    ensures idType == 1 ==> r == GrantForId(Some(accounts))
    ensures idType != 0 && idType != 1 ==> r.None?
  {
    if idType == 0 then GrantForUIN(Some(accounts))
    else if idType == 1 then GrantForId(Some(accounts))
    else None
  }

  /**
   * The headers after `setXCOSGrant(list, idType, grantType)`: with a list
   * and a known grant type, only that grant's header changes, to the
   * message (null for an empty list or an unknown id type); otherwise
   * nothing changes.
   */
  function ApplyGrant(h: StringMap, accounts: Option<seq<string>>, idType: int, grantType: int): (r: StringMap)
    ensures accounts.None? || GrantHeader(grantType).None? ==> r == h
    ensures accounts.Some? && GrantHeader(grantType).Some? ==>
              var key := GrantHeader(grantType).value;
              key in r && r[key] == GrantMessage(accounts.value, idType)
    ensures forall k :: GrantHeader(grantType) != Some(k) ==> (k in r <==> k in h) && (k in h ==> r[k] == h[k])
  {
    if accounts.None? then h
    else
      match GrantHeader(grantType)
      case None => h
      case Some(key) => h[key := GrantMessage(accounts.value, idType)]
  }

  /** With id type 1 every non-empty list is written in the CAM id format, with 0 in the UIN format. */
  lemma GrantFormatOfIdType(accounts: seq<string>)
    requires accounts != []
    ensures StartsWith(GrantMessage(accounts, 1).value, ID_PREFIX)
    ensures StartsWith(GrantMessage(accounts, 0).value, UIN_PREFIX)
  {
    var ids := Entries(ID_PREFIX, accounts);
    var uins := Entries(UIN_PREFIX, accounts);
    if |accounts| > 1 {
      assert Join(ids, ',') == ids[0] + [','] + Join(ids[1..], ',');
      assert Join(uins, ',') == uins[0] + [','] + Join(uins[1..], ',');
    }
    assert ids[0][..|ID_PREFIX|] == ID_PREFIX;
    assert uins[0][..|UIN_PREFIX|] == UIN_PREFIX;
  }

  class InitMultipartUploadRequest {
    var bucket: Option<string>
    var cosPath: Option<string>
    var requestPath: Option<string>
    var requestMethod: Option<string>
    var requestQueryParams: StringMap
    var requestHeaders: StringMap

    constructor ()
      ensures bucket.None? && cosPath.None? && requestPath.None? && requestMethod.None?
      ensures requestQueryParams == map[] && requestHeaders == map[]
    {
      bucket, cosPath, requestPath, requestMethod := None, None, None, None;
      requestQueryParams, requestHeaders := map[], map[];
    }

    /** The single query parameter of the initiate call: `uploads` with no value. */
    method SetRequestQueryParams()
      modifies this`requestQueryParams
      ensures requestQueryParams == old(requestQueryParams)[UPLOADS := None]
    {
      requestQueryParams := requestQueryParams[UPLOADS := None];
    }

    /** Fails when the bucket is missing, else when the object key is. */
    function CheckParameters(): (r: Outcome<ParameterError>)
      reads this
      ensures r.Pass? <==> bucket.Some? && cosPath.Some?
      ensures bucket.None? ==> r == Fail(BucketMustNotBeNull)
      ensures bucket.Some? && cosPath.None? ==> r == Fail(CosPathMustNotBeNull)
    {
      if bucket.None? then Fail(BucketMustNotBeNull)
      else if cosPath.None? then Fail(CosPathMustNotBeNull)
      else Pass
    }

    method SetRequestMethod()
      modifies this`requestMethod
      ensures requestMethod == Some(POST)
    {
      requestMethod := Some(POST);
    }

    /** The request path is the normalised object key; without a key it is left as it was. */
    method SetRequestPath()
      modifies this`requestPath
      ensures cosPath.None? ==> requestPath == old(requestPath)
      ensures cosPath.Some? ==> requestPath == Some(NormalizePath(cosPath.value))
    {
      if cosPath.Some? {
        if !StartsWith(cosPath.value, "/") {
          requestPath := Some("/" + cosPath.value);
        } else {
          requestPath := cosPath;
        }
      }
    }

    /** The bucket setter every request inherits. */
    method SetBucket(bucket: Option<string>)
      modifies this`bucket
      ensures this.bucket == bucket
    {
      this.bucket := bucket;
    }

    method SetCosPath(cosPath: Option<string>)
      modifies this`cosPath
      ensures this.cosPath == cosPath
    {
      this.cosPath := cosPath;
    }

    method SetCacheControl(cacheControl: Option<string>)
      modifies this`requestHeaders
      ensures requestHeaders == PutIfPresent(old(requestHeaders), "Cache-Control", cacheControl)
    {
      if cacheControl.None? {
        return;
      }
      requestHeaders := requestHeaders["Cache-Control" := cacheControl];
    }

    method SetContentDisposition(contentDisposition: Option<string>)
      modifies this`requestHeaders
      ensures requestHeaders == PutIfPresent(old(requestHeaders), "Content-Disposition", contentDisposition)
    {
      if contentDisposition.None? {
        return;
      }
      requestHeaders := requestHeaders["Content-Disposition" := contentDisposition];
    }

    method SetContentEncodeing(contentEncodeing: Option<string>)
      modifies this`requestHeaders
      ensures requestHeaders == PutIfPresent(old(requestHeaders), "Content-Encoding", contentEncodeing)
    {
      if contentEncodeing.None? {
        return;
      }
      requestHeaders := requestHeaders["Content-Encoding" := contentEncodeing];
    }

    method SetExpires(expires: Option<string>)
      modifies this`requestHeaders
      ensures requestHeaders == PutIfPresent(old(requestHeaders), "Expires", expires)
    {
      if expires.None? {
        return;
      }
      requestHeaders := requestHeaders["Expires" := expires];
    }

    /** A user metadata header: written only when both the name and the value are non-null. */
    method SetXCOSMeta(key: Option<string>, value: Option<string>)
      modifies this`requestHeaders
      ensures key.None? ==> requestHeaders == old(requestHeaders)
      ensures key.Some? ==> requestHeaders == PutIfPresent(old(requestHeaders), key.value, value)
    {
      if key.Some? && value.Some? {
        requestHeaders := requestHeaders[key.value := value];
      }
    }

    /** The canned ACL header. */
    method SetXCOSACL(acl: Option<string>)
      modifies this`requestHeaders
      ensures requestHeaders == PutIfPresent(old(requestHeaders), "x-cos-acl", acl)
    {
      if acl.Some? {
        requestHeaders := requestHeaders["x-cos-acl" := acl];
      }
    }

    /** `getXCOSGrantForId`: the entries appended in a loop, the last one without a comma. */
    method GetXCOSGrantForId(idList: Option<seq<string>>) returns (r: Option<string>)
      ensures r == GrantForId(idList)
    {
      r := AppendGrants(ID_PREFIX, idList);
    }

    /** `getXCOSGrantForUIN`: the same loop with the UIN prefix. */
    method GetXCOSGrantForUIN(uinList: Option<seq<string>>) returns (r: Option<string>)
      ensures r == GrantForUIN(uinList)
    {
      r := AppendGrants(UIN_PREFIX, uinList);
    }

    /** The loop both grant formatters run over their list. */
    method AppendGrants(prefix: string, list: Option<seq<string>>) returns (r: Option<string>)
      ensures r == GrantValue(prefix, list)
    {
      if list.None? {
        return None;
      }
      var accounts := list.value;
      var size := |accounts|;
      if size == 0 {
        return None;
      }
      ghost var entries := Entries(prefix, accounts);
      var builder := "";
      var i := 0;
      while i < size - 1
        invariant 0 <= i <= size - 1
        invariant builder == Terminated(entries, ',', i)
      {
        builder := builder + prefix + accounts[i] + "\"" + ",";
        i := i + 1;
      }
      builder := builder + prefix + accounts[size - 1] + "\"";
      assert builder == Terminated(entries, ',', size - 1) + entries[size - 1];
      TerminatedThenJoin(entries, ',', size - 1);
      assert Join(entries[size - 1..], ',') == entries[size - 1];
      r := Some(builder);
    }

    /** `setXCOSGrant(list, idType, grantType)`. */
    method SetXCOSGrant(list: Option<seq<string>>, idType: int, grantType: int)
      modifies this`requestHeaders
      ensures requestHeaders == ApplyGrant(old(requestHeaders), list, idType, grantType)
    {
      if list.Some? {
        var grantMsg: Option<string> := None;
        if idType == 0 {
          grantMsg := GetXCOSGrantForUIN(list);
        } else if idType == 1 {
          grantMsg := GetXCOSGrantForId(list);
        }
        if grantType == 0 {
          requestHeaders := requestHeaders[GRANT_READ := grantMsg];
        } else if grantType == 1 {
          requestHeaders := requestHeaders[GRANT_WRITE := grantMsg];
        } else if grantType == 2 {
          requestHeaders := requestHeaders[GRANT_FULL_CONTROL := grantMsg];
        }
      }
    }

    method SetXCOSGrantReadWithUIN(uinList: Option<seq<string>>)
      modifies this`requestHeaders
      ensures requestHeaders == ApplyGrant(old(requestHeaders), uinList, 1, 0)
    {
      SetXCOSGrant(uinList, 1, 0);
    }

    method SetXCOSGrantRead(idList: Option<seq<string>>)
      modifies this`requestHeaders
      ensures requestHeaders == ApplyGrant(old(requestHeaders), idList, 0, 0)
    {
      SetXCOSGrant(idList, 0, 0);
    }

    method SetXCOSGrantWriteWithUIN(uinList: Option<seq<string>>)
      modifies this`requestHeaders
      ensures requestHeaders == ApplyGrant(old(requestHeaders), uinList, 1, 1)
    {
      SetXCOSGrant(uinList, 1, 1);
    }

    method SetXCOSGrantWrite(idList: Option<seq<string>>)
      modifies this`requestHeaders
      ensures requestHeaders == ApplyGrant(old(requestHeaders), idList, 0, 1)
    {
      SetXCOSGrant(idList, 0, 1);
    }

    method SetXCOSReadWriteWithUIN(uinList: Option<seq<string>>)
      modifies this`requestHeaders
      ensures requestHeaders == ApplyGrant(old(requestHeaders), uinList, 1, 2)
    {
      SetXCOSGrant(uinList, 1, 2);
    }

    method SetXCOSReadWrite(idList: Option<seq<string>>)
      modifies this`requestHeaders
      ensures requestHeaders == ApplyGrant(old(requestHeaders), idList, 0, 2)
    {
      SetXCOSGrant(idList, 0, 2);
    }
  }
}
