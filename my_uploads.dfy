/**
 * The list of the user's uploads (app/my-uploads/page.tsx): the chain of
 * early exits of `fetchUploads`, the row-to-row-plus-URL mapping, the alerts
 * and the file name shown for each entry.
 */
module MyUploads {
  import opened Wrappers
  import opened Text
  import opened Backend
  import StorageUpload

  /** A row with the `signed_url` added to it (`{ ...upload, signed_url }`). */
  datatype UploadWithUrl = UploadWithUrl(upload: Upload, signedUrl: string)

  /** `signedUrlData?.signedUrl || ""`: the URL, or the empty string when there is none. */
  function UrlOrEmpty(r: SignedUrlResponse): string
  {
    match r.signedUrl
    case Some(u) => u
    case None => ""
  }

  /**
   * The awaited `data.map(...)`: the rows in query order, each with the URL
   * minted for it; a failed mint leaves that row with `""` instead of
   * dropping it or failing the list.
   */
  function WithSignedUrls(rows: seq<Upload>, minted: seq<SignedUrlResponse>): (r: seq<UploadWithUrl>)
    requires |minted| == |rows|
    ensures |r| == |rows|
    ensures forall k :: 0 <= k < |rows| ==> r[k].upload == rows[k] && r[k].signedUrl == UrlOrEmpty(minted[k])
    ensures forall k :: 0 <= k < |rows| && minted[k].signedUrl.None? ==> r[k].signedUrl == ""
  {
    if rows == [] then []
    else [UploadWithUrl(rows[0], UrlOrEmpty(minted[0]))] + WithSignedUrls(rows[1..], minted[1..])
  }

  /** One signed-URL request per row, in row order, each for that row's own key and for one hour. */
  predicate MintsFor(rows: seq<Upload>, calls: seq<Call>)
  {
    |calls| == |rows| &&
    forall k :: 0 <= k < |calls| ==>
      calls[k].CreateSignedUrlCall? &&
      calls[k].bucket == AudioBucket && calls[k].path == rows[k].filePath && calls[k].expiresIn == SignedUrlSeconds
  }

  /** The responses of a run of signed-URL requests. */
  function SignedResponses(calls: seq<Call>): (rs: seq<SignedUrlResponse>)
    requires forall k :: 0 <= k < |calls| ==> calls[k].CreateSignedUrlCall?
  {
    seq(|calls|, k requires 0 <= k < |calls| => calls[k].signed)
  }

  /** How `fetchUploads` ends. */
  datatype FetchOutcome =
    | NotLoggedIn
    | QueryFailed(message: string)
    | NoData
    | Listed(uploads: seq<UploadWithUrl>)

  /**
   * The calls one run of `fetchUploads` makes and how it ends: the user, the
   * query for that user's rows newest first, then one mint per row.
   */
  predicate FetchRun(calls: seq<Call>, outcome: FetchOutcome)
  {
    |calls| >= 1 && calls[0].GetUserCall? &&
    if SignedInUser(calls[0].auth).None? then |calls| == 1 && outcome == NotLoggedIn
    else
      var user := SignedInUser(calls[0].auth).value;
      |calls| >= 2 && calls[1].SelectUploadsCall? &&
      calls[1] == SelectUploadsCall(UploadsTable, user.id, "timestamp", false, calls[1].query) &&
      var q := calls[1].query;
      if q.error.Some? then |calls| == 2 && outcome == QueryFailed(q.error.value.message)
      else if q.rows.None? then |calls| == 2 && outcome == NoData
      else
        var rows := q.rows.value;
        MintsFor(rows, calls[2..]) &&
        outcome == Listed(WithSignedUrls(rows, SignedResponses(calls[2..])))
  }

  /**
   * A listed result has one entry per row the query returned, in the same
   * order, each carrying its row unchanged, and one one-hour mint per row for
   * that row's own key; and nothing is written.
   */
  lemma ListedFollowsQuery(calls: seq<Call>, outcome: FetchOutcome)
    requires FetchRun(calls, outcome)
    ensures forall c :: c in calls ==> !IsWrite(c)
    ensures outcome.Listed? ==>
              SignedInUser(calls[0].auth).Some? && calls[1].query.rows.Some? &&
              var rows := calls[1].query.rows.value;
              |outcome.uploads| == |rows| && |calls| == 2 + |rows| &&
              forall k :: 0 <= k < |rows| ==> outcome.uploads[k].upload == rows[k]
    ensures outcome.Listed? ==>
              calls[1].query.rows.Some? &&
              forall k :: 0 <= k < |calls[1].query.rows.value| ==>
                2 + k < |calls| && calls[2 + k].CreateSignedUrlCall? &&
                calls[2 + k].bucket == AudioBucket &&
                calls[2 + k].path == calls[1].query.rows.value[k].filePath &&
                calls[2 + k].expiresIn == 3600
    ensures !outcome.Listed? ==> |calls| <= 2
  {
  }

  /** The alert shown on each early exit, as the source writes it. */
  function AlertAsWritten(o: FetchOutcome): Option<string>
  {
    match o
    case NotLoggedIn => Some("You must be logged in!")
    case QueryFailed(_) => Some("Failed to fetch uploads: ${error.message}")
    case NoData => Some("No Uploads Found")
    case Listed(_) => None
  }

  /**
   * The query-failure alert is a single-quoted string, so `${error.message}`
   * is shown literally: two different errors read the same.
   */
  lemma AlertAsWrittenLosesMessage()
    ensures AlertAsWritten(QueryFailed("permission denied")) == AlertAsWritten(QueryFailed("timeout"))
  {
  }

  /** The alerts with the error message interpolated, as evidently intended. */
  function Alert(o: FetchOutcome): (a: Option<string>)
    ensures a.None? <==> o.Listed?
    ensures o.QueryFailed? ==> a == Some("Failed to fetch uploads: " + o.message)
  {
    match o
    case NotLoggedIn => Some("You must be logged in!")
    case QueryFailed(m) => Some("Failed to fetch uploads: " + m)
    case NoData => Some("No Uploads Found")
    case Listed(_) => None
  }

  /** With interpolation the alert names the error: different errors read differently. */
  lemma AlertNamesError(m: string, m': string)
    ensures Alert(QueryFailed(m)) == Alert(QueryFailed(m')) ==> m == m'
  {
    var prefix := "Failed to fetch uploads: ";
    if Alert(QueryFailed(m)) == Alert(QueryFailed(m')) {
      assert m == (prefix + m)[|prefix|..];
      assert m' == (prefix + m')[|prefix|..];
    }
  }

  /**
   * The file name extracted from a signed URL before decoding: the last
   * `/`-segment up to its first `?`, or `Unknown File` when that is empty.
   */
  function RawName(signedUrl: string): (n: string)
    ensures n != [] && '/' !in n && '?' !in n
    ensures signedUrl == "" ==> n == UnknownFile
  {
    var segment := FirstSegment(LastSegment(signedUrl, '/'), '?');
    if segment == "" then UnknownFileSepFree(); UnknownFile else segment
  }

  /** The placeholder shown when a URL has no file name. */
  const UnknownFile := "Unknown File"

  lemma UnknownFileSepFree()
    ensures '/' !in UnknownFile && '?' !in UnknownFile
  {
    assert forall k :: 0 <= k < |UnknownFile| ==> UnknownFile[k] != '/' && UnknownFile[k] != '?';
  }

  /** The name shown for an entry; `decodeURIComponent` is left abstract as `decode`. */
  function DisplayName(signedUrl: string, decode: string -> string): string
  {
    decode(RawName(signedUrl))
  }

  /**
   * For a URL of the form `<base>/<name>?<query>` whose name has no `/` or
   * `?` and whose query has no `/`, the entry shows the decoded name.
   */
  lemma DisplayNameOfObjectUrl(base: string, name: string, query: string, decode: string -> string)
    requires name != [] && '/' !in name && '?' !in name && '/' !in query
    ensures DisplayName(base + "/" + name + "?" + query, decode) == decode(name)
  {
    var tail := name + "?" + query;
    assert base + "/" + name + "?" + query == base + ['/'] + tail;
    LastSegmentAfterSep(base, tail, '/');
    assert tail == name + ['?'] + query;
    FirstSegmentOfSepFree(name, query, '?');
  }

  /**
   * An object stored by the upload page under ``<user id>/<file name>`` and
   * served at `<base>/<key>?<query>` is listed under its decoded file name.
   */
  lemma UploadedFileListedByName(base: string, userId: string, fileName: string, query: string, decode: string -> string)
    requires fileName != [] && '/' !in fileName && '?' !in fileName && '/' !in query
    ensures DisplayName(base + "/" + StorageUpload.StoragePath(userId, fileName) + "?" + query, decode) == decode(fileName)
  {
    assert base + "/" + StorageUpload.StoragePath(userId, fileName) + "?" + query
        == (base + "/" + userId) + "/" + fileName + "?" + query;
    DisplayNameOfObjectUrl(base + "/" + userId, fileName, query, decode);
  }

  class MyUploadsPage {
    const backend: Client
    var uploads: seq<UploadWithUrl>
    var loading: bool

    constructor (backend: Client)
      ensures this.backend == backend && uploads == [] && loading
    {
      this.backend := backend;
      uploads := [];
      loading := true;
    }

    /**
     * `fetchUploads`, with the `Promise.all` fan-out run as a loop in row
     * order. Every early exit leaves the list and the loading flag alone;
     * only a complete list clears `loading`.
     */
    method FetchUploads() returns (outcome: FetchOutcome, alert: Option<string>)
      modifies this, backend
      ensures |old(backend.log)| <= |backend.log| && backend.log[..|old(backend.log)|] == old(backend.log)
      ensures FetchRun(backend.log[|old(backend.log)|..], outcome)
      ensures alert == Alert(outcome)
      ensures outcome.Listed? ==> uploads == outcome.uploads && !loading
      ensures !outcome.Listed? ==> uploads == old(uploads) && loading == old(loading)
    {
      ghost var log0 := backend.log;
      var auth := backend.GetUser();
      if auth.error.Some? || auth.user.None? {
        outcome := NotLoggedIn;
        alert := Alert(outcome);
        assert backend.log[|log0|..] == [GetUserCall(auth)];
        return;
      }
      var user := auth.user.value;
      var q := backend.SelectUploads(UploadsTable, user.id, "timestamp", false);
      ghost var head := [GetUserCall(auth), SelectUploadsCall(UploadsTable, user.id, "timestamp", false, q)];
      assert backend.log == log0 + head;
      if q.error.Some? {
        outcome := QueryFailed(q.error.value.message);
        alert := Alert(outcome);
        assert backend.log[|log0|..] == head;
        return;
      }
      if q.rows.None? {
        outcome := NoData;
        alert := Alert(outcome);
        assert backend.log[|log0|..] == head;
        return;
      }
      var rows := q.rows.value;

      var listed: seq<UploadWithUrl> := [];
      ghost var mints: seq<Call> := [];
      var i := 0;
      while i < |rows|
        invariant 0 <= i <= |rows|
        invariant backend.log == log0 + head + mints
        invariant MintsFor(rows[..i], mints)
        invariant |listed| == i
        invariant forall k :: 0 <= k < i ==> listed[k] == UploadWithUrl(rows[k], UrlOrEmpty(mints[k].signed))
        invariant uploads == old(uploads) && loading == old(loading)
      {
        var signed := backend.CreateSignedUrl(AudioBucket, rows[i].filePath, SignedUrlSeconds);
        listed := listed + [UploadWithUrl(rows[i], UrlOrEmpty(signed))];
        mints := mints + [CreateSignedUrlCall(AudioBucket, rows[i].filePath, SignedUrlSeconds, signed)];
        i := i + 1;
      }
      assert rows[..i] == rows;
      assert backend.log[|log0|..] == head + mints;
      assert (head + mints)[2..] == mints;
      assert listed == WithSignedUrls(rows, SignedResponses(mints));
      uploads := listed;
      loading := false;
      outcome := Listed(listed);
      alert := Alert(outcome);
    }
  }
}
