/**
 * The upload page that talks to the backend (app/upload/page.tsx): the
 * five-step chain getUser, storage key, storage write, signed URL, metadata
 * row, each failing step ending the chain.
 */
module StorageUpload {
  import opened Wrappers
  import opened Text
  import opened Files
  import opened Backend

  /** The storage key ``${user.id}/${selectedFile.name}``. */
  function StoragePath(userId: string, fileName: string): (path: string)
    ensures StartsWith(path, userId + "/")
    ensures |path| == |userId| + 1 + |fileName| && path[|userId| + 1..] == fileName
  {
    ConcatStartsWith(userId + "/", fileName);
    userId + "/" + fileName
  }

  /**
   * For ids without a `/` the key names its owner and its file: the owner is
   * the part before the first `/`, the file name (when it has no `/`) the
   * part after the last.
   */
  lemma StoragePathDecomposes(userId: string, fileName: string)
    requires '/' !in userId
    ensures FirstSegment(StoragePath(userId, fileName), '/') == userId
    ensures '/' !in fileName ==> LastSegment(StoragePath(userId, fileName), '/') == fileName
  {
    FirstSegmentOfSepFree(userId, fileName, '/');
    if '/' !in fileName {
      LastSegmentAfterSep(userId, fileName, '/');
    }
  }

  /** How a press of Upload ends, one case per `return` of `handleUpload`. */
  datatype Outcome =
    | NoFileSelected
    | NotLoggedIn
    | UploadFailed(message: string)
    | SignedUrlFailed(message: string)
    | Uploaded(path: string, signedUrl: Option<string>)

  /** The alerts each ending shows (a template with an absent URL prints `undefined`). */
  function Alerts(o: Outcome): (alerts: seq<string>)
    ensures o.NoFileSelected? <==> alerts == []
    ensures o.Uploaded? <==> |alerts| == 2
  {
    match o
    case NoFileSelected => []
    case NotLoggedIn => ["User Not Logged In"]
    case UploadFailed(m) => ["Upload Failed: " + m]
    case SignedUrlFailed(m) => ["Failed to get signed URL: " + m]
    case Uploaded(_, url) =>
      ["File uploaded successfully!",
       "File URL: " + match url case Some(u) => u case None => "undefined"]
  }

  /**
   * The calls one press of Upload makes and how it ends, given the file that
   * was selected; each call's response, recorded with it, decides whether the
   * chain goes on.
   */
  predicate UploadRun(selected: Option<File>, calls: seq<Call>, outcome: Outcome)
  {
    if selected.None? then calls == [] && outcome == NoFileSelected
    else
      var file := selected.value;
      |calls| >= 1 && calls[0].GetUserCall? &&
      if SignedInUser(calls[0].auth).None? then |calls| == 1 && outcome == NotLoggedIn
      else
        var user := SignedInUser(calls[0].auth).value;
        var path := StoragePath(user.id, file.name);
        |calls| >= 2 && calls[1].UploadObjectCall? &&
        calls[1] == UploadObjectCall(AudioBucket, path, file, true, calls[1].uploadError) &&
        if calls[1].uploadError.Some? then |calls| == 2 && outcome == UploadFailed(calls[1].uploadError.value.message)
        else
          |calls| >= 3 && calls[2].CreateSignedUrlCall? &&
          calls[2] == CreateSignedUrlCall(AudioBucket, path, SignedUrlSeconds, calls[2].signed) &&
          if calls[2].signed.error.Some? then |calls| == 3 && outcome == SignedUrlFailed(calls[2].signed.error.value.message)
          else
            |calls| == 4 && calls[3].InsertUploadCall? &&
            calls[3] == InsertUploadCall(UploadsTable, NewUpload(user.id, path), calls[3].insertError) &&
            outcome == Uploaded(path, calls[2].signed.signedUrl)
  }

  /** The step of the chain a call belongs to. */
  function StepOf(c: Call): nat
  {
    match c
    case GetUserCall(_) => 0
    case UploadObjectCall(_, _, _, _, _) => 1
    case CreateSignedUrlCall(_, _, _, _) => 2
    case InsertUploadCall(_, _, _) => 3
    case SelectUploadsCall(_, _, _, _, _) => 4
    case UpsertProfileCall(_, _, _) => 5
  }

  /** The steps run in order, each at most once, and a failing step is the last one. */
  lemma StepsInOrder(selected: Option<File>, calls: seq<Call>, outcome: Outcome)
    requires UploadRun(selected, calls, outcome)
    ensures forall i :: 0 <= i < |calls| ==> StepOf(calls[i]) == i
    ensures |calls| == match outcome
                       case NoFileSelected => 0
                       case NotLoggedIn => 1
                       case UploadFailed(_) => 2
                       case SignedUrlFailed(_) => 3
                       case Uploaded(_, _) => 4
  {
  }

  /**
   * Without a file nothing is called; without a signed-in user nothing is
   * written and no URL is requested.
   */
  lemma NoEffectWithoutFileOrUser(selected: Option<File>, calls: seq<Call>, outcome: Outcome)
    requires UploadRun(selected, calls, outcome)
    ensures selected.None? <==> outcome.NoFileSelected?
    ensures outcome.NoFileSelected? ==> calls == []
    ensures calls == [] ==> selected.None?
    ensures outcome.NotLoggedIn? ==> forall c :: c in calls ==> !IsWrite(c) && !c.CreateSignedUrlCall?
  {
  }

  /**
   * The object is written, its URL requested and its row inserted under the
   * key ``<user id>/<file name>`` of the user the first call returned, into
   * the audio bucket with overwrite on, for one hour.
   */
  lemma KeyBelongsToUser(file: File, calls: seq<Call>, outcome: Outcome)
    requires UploadRun(Some(file), calls, outcome)
    ensures forall c :: c in calls && (IsWrite(c) || c.CreateSignedUrlCall?) ==> SignedInUser(calls[0].auth).Some?
    ensures forall c :: c in calls && c.UploadObjectCall? ==>
              c.bucket == AudioBucket && c.upsert && c.file == file &&
              c.path == StoragePath(SignedInUser(calls[0].auth).value.id, file.name)
    ensures forall c :: c in calls && c.CreateSignedUrlCall? ==>
              c.bucket == AudioBucket && c.expiresIn == 3600 &&
              c.path == StoragePath(SignedInUser(calls[0].auth).value.id, file.name)
    ensures forall c :: c in calls && c.InsertUploadCall? ==>
              c.table == UploadsTable &&
              c.newRow == NewUpload(SignedInUser(calls[0].auth).value.id,
                                    StoragePath(SignedInUser(calls[0].auth).value.id, file.name))
  {
  }

  /** Every row the chain inserts has a `file_path` prefixed by its own `user_id` and `/`. */
  lemma InsertedRowOwnedByUser(selected: Option<File>, calls: seq<Call>, outcome: Outcome)
    requires UploadRun(selected, calls, outcome)
    ensures forall c :: c in calls && c.InsertUploadCall? ==> StartsWith(c.newRow.filePath, c.newRow.userId + "/")
  {
  }

  /**
   * A failed write stops before the URL and the row; a failed URL stops
   * before the row; a row is inserted exactly on the success path, and its
   * own result is never looked at.
   */
  lemma FailuresShortCircuit(selected: Option<File>, calls: seq<Call>, outcome: Outcome)
    requires UploadRun(selected, calls, outcome)
    ensures outcome.UploadFailed? ==> forall c :: c in calls ==> !c.CreateSignedUrlCall? && !c.InsertUploadCall?
    ensures outcome.SignedUrlFailed? ==> forall c :: c in calls ==> !c.InsertUploadCall?
    ensures (exists c :: c in calls && c.InsertUploadCall?) <==> outcome.Uploaded?
  {
    if outcome.Uploaded? {
      assert calls[3] in calls;
    }
  }

  class UploadPage {
    const backend: Client
    var selectedFile: Option<File>
    var uploading: bool

    constructor (backend: Client)
      ensures this.backend == backend && selectedFile == None && !uploading
    {
      this.backend := backend;
      selectedFile := None;
      uploading := false;
    }

    /** `handleFileChange`: any chosen file is taken (the type is not checked here). */
    method HandleFileChange(file: Option<File>)
      modifies this
      ensures selectedFile == if file.Some? then file else old(selectedFile)
      ensures uploading == old(uploading)
    {
      if file.Some? {
        selectedFile := file;
      }
    }

    /** `handleUpload`. */
    method HandleUpload() returns (outcome: Outcome)
      modifies this, backend
      ensures |old(backend.log)| <= |backend.log| && backend.log[..|old(backend.log)|] == old(backend.log)
      ensures UploadRun(old(selectedFile), backend.log[|old(backend.log)|..], outcome)
      ensures uploading == (if outcome.NoFileSelected? then old(uploading) else false)
      ensures selectedFile == if outcome.Uploaded? then None else old(selectedFile)
    {
      ghost var log0 := backend.log;
      if selectedFile.None? {
        outcome := NoFileSelected;
        return;
      }
      var file := selectedFile.value;
      uploading := true;

      var auth := backend.GetUser();
      if auth.error.Some? || auth.user.None? {
        uploading := false;
        outcome := NotLoggedIn;
        assert backend.log[|log0|..] == [GetUserCall(auth)];
        return;
      }
      var user := auth.user.value;
      var path := StoragePath(user.id, file.name);

      var uploadError := backend.UploadObject(AudioBucket, path, file, true);
      if uploadError.Some? {
        uploading := false;
        outcome := UploadFailed(uploadError.value.message);
        assert backend.log[|log0|..] == [GetUserCall(auth), UploadObjectCall(AudioBucket, path, file, true, uploadError)];
        return;
      }

      var signed := backend.CreateSignedUrl(AudioBucket, path, SignedUrlSeconds);
      if signed.error.Some? {
        uploading := false;
        outcome := SignedUrlFailed(signed.error.value.message);
        assert backend.log[|log0|..] == [GetUserCall(auth), UploadObjectCall(AudioBucket, path, file, true, uploadError),
                                         CreateSignedUrlCall(AudioBucket, path, SignedUrlSeconds, signed)];
        return;
      }

      var insertError := backend.InsertUpload(UploadsTable, NewUpload(user.id, path));
      assert backend.log[|log0|..] == [GetUserCall(auth), UploadObjectCall(AudioBucket, path, file, true, uploadError),
                                       CreateSignedUrlCall(AudioBucket, path, SignedUrlSeconds, signed),
                                       InsertUploadCall(UploadsTable, NewUpload(user.id, path), insertError)];
      selectedFile := None;
      uploading := false;
      outcome := Uploaded(path, signed.signedUrl);
    }
  }
}
