/**
 * The browser's gateway to the backend and to object storage: how each request URL is built
 * and how each HTTP response is classified into a value or a thrown error.
 */
module Gateway {
  import opened Wrappers
  import opened Strings
  import opened FeedTypes

  const DEFAULT_API_ENDPOINT: string := "/api"
  const MOCK_BUCKET_MARKER: string := "mock-s3-bucket"
  const NOT_FOUND: int := 404

  /**
   * A query-string value: the text of a value passed through `encodeURIComponent` (kept
   * uninterpreted), or a number written out as it is.
   */
  datatype QueryValue = UriEncoded(raw: string) | Plain(n: int)

  /** A request URL: a path and its query parameters in order. */
  datatype Url = Url(path: string, query: seq<(string, QueryValue)>)

  /** An HTTP response: its status code and its parsed body. */
  datatype Response<T> = Response(status: int, body: T)

  /** The upload slot the backend grants: where to PUT the bytes and the key they get. */
  datatype SlotGrant = SlotGrant(uploadUrl: string, fileId: string)

  /** The storage PUT: target URL and the `Content-Type` header. */
  datatype PutRequest = PutRequest(url: string, contentType: string)

  /** What an upload did: the PUT it issued, if any, and whether it succeeded. */
  datatype Upload = Upload(put: Option<PutRequest>, outcome: Result<()>)

  /** A status lookup: not ready yet (HTTP 404), or the item the backend reported. */
  datatype StatusReply = NotReady | Reported(item: FeedItem)

  /** `response.ok`. */
  predicate IsOk(status: int)
  {
    200 <= status <= 299
  }

  /** The configured API base, or "/api" when the setting is unset or empty. */
  function ApiEndpoint(configured: Option<string>): (base: string)
    ensures Truthy(configured) ==> base == configured.value
    ensures !Truthy(configured) ==> base == DEFAULT_API_ENDPOINT
  {
    if Truthy(configured) then configured.value else DEFAULT_API_ENDPOINT
  }

  /** The slot request: the file's MIME type goes URI-encoded into `contentType`. */
  function SlotRequestUrl(base: string, fileType: string): (u: Url)
    ensures u.path == base + "/generate-presigned-url"
    ensures u.query == [("contentType", UriEncoded(fileType))]
  {
    Url(base + "/generate-presigned-url", [("contentType", UriEncoded(fileType))])
  }

  /** `getPresignedUrl`: a non-2xx reply throws, a 2xx reply yields the parsed grant. */
  function GetPresignedUrl(resp: Response<SlotGrant>): (r: Result<SlotGrant>)
    ensures r.Success? <==> IsOk(resp.status)
    ensures r.Success? ==> r.value == resp.body
  {
    if !IsOk(resp.status) then Failure("Failed to get upload URL") else Success(resp.body)
  }

  /**
   * `uploadToS3`: a URL naming the mock bucket succeeds with no request at all; otherwise the
   * bytes are PUT with the file's type, and a non-2xx reply throws.
   */
  function UploadToS3(presignedUrl: string, fileType: string, putStatus: int): (u: Upload)
    ensures u.put.None? <==> Contains(presignedUrl, MOCK_BUCKET_MARKER)
    ensures u.put.Some? ==> u.put.value == PutRequest(presignedUrl, fileType)
    ensures u.outcome.Success? <==> u.put.None? || IsOk(putStatus)
  {
    if Contains(presignedUrl, MOCK_BUCKET_MARKER) then Upload(None, Success(()))
    else if !IsOk(putStatus) then Upload(Some(PutRequest(presignedUrl, fileType)), Failure("Failed to upload image to S3"))
    else Upload(Some(PutRequest(presignedUrl, fileType)), Success(()))
  }

  /** A JavaScript number is truthy unless it is 0 (timestamps are never NaN here). */
  predicate TruthyNumber(n: Option<int>)
  {
    n.Some? && n.value != 0
  }

  /**
   * The listing URL: `?after=<timestamp>` only for a truthy timestamp, and the number goes in
   * unencoded; null or 0 asks for the whole feed.
   */
  function ListImagesUrl(base: string, after: Option<int>): (u: Url)
    ensures u.path == base + "/list-images"
    ensures TruthyNumber(after) ==> u.query == [("after", Plain(after.value))]
    ensures !TruthyNumber(after) ==> u.query == []
  {
    var u := Url(base + "/list-images", []);
    if TruthyNumber(after) then u.(query := [("after", Plain(after.value))]) else u
  }

  /** `listImages`: a non-2xx reply throws, a 2xx reply yields the parsed body. */
  function ListImages(resp: Response<ListReply>): (r: Result<ListReply>)
    ensures r.Success? <==> IsOk(resp.status)
    ensures r.Success? ==> r.value == resp.body
  {
    if !IsOk(resp.status) then Failure("Failed to fetch images") else Success(resp.body)
  }

  /** The status request: the key goes URI-encoded into `key`. */
  function StatusUrl(base: string, key: string): (u: Url)
    ensures u.path == base + "/get-image-status"
    ensures u.query == [("key", UriEncoded(key))]
  {
    Url(base + "/get-image-status", [("key", UriEncoded(key))])
  }

  /**
   * `getImageStatus`: 404 means "not ready yet" and is a normal result; any other non-2xx reply
   * throws; a 2xx reply yields the reported item.
   */
  function GetImageStatus(resp: Response<FeedItem>): (r: Result<StatusReply>)
    ensures resp.status == NOT_FOUND ==> r == Success(NotReady)
    ensures resp.status != NOT_FOUND ==> (r.Success? <==> IsOk(resp.status))
    ensures IsOk(resp.status) ==> r == Success(Reported(resp.body))
  {
    if resp.status == NOT_FOUND then Success(NotReady)
    else if !IsOk(resp.status) then Failure("Failed to fetch image status")
    else Success(Reported(resp.body))
  }

  /** A cursor of 0 asks for the whole feed, exactly as a missing cursor does. */
  lemma ZeroCursorIsUnfiltered(base: string)
    ensures ListImagesUrl(base, Some(0)) == ListImagesUrl(base, None) == Url(base + "/list-images", [])
  {
  }

  /** A mock-bucket URL never issues a PUT, so the upload succeeds whatever storage would answer. */
  lemma MockUploadAlwaysSucceeds(presignedUrl: string, fileType: string, putStatus: int)
    requires Contains(presignedUrl, MOCK_BUCKET_MARKER)
    ensures UploadToS3(presignedUrl, fileType, putStatus) == Upload(None, Success(()))
  {
  }

  /** Only 404 is read as "not ready": every other failing status is thrown, every 2xx is a report. */
  lemma StatusClassification(resp: Response<FeedItem>)
    ensures GetImageStatus(resp) == Success(NotReady) <==> resp.status == NOT_FOUND
    ensures GetImageStatus(resp).Failure? <==> resp.status != NOT_FOUND && !IsOk(resp.status)
  {
  }
}
