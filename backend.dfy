/**
 * The hosted backend the pages call through its client object: the identity
 * service, the object store and the tables. The model does not know how
 * these services answer, so each call may return any response; what it does
 * fix is the record of calls made (`log`), with the arguments passed and the
 * response received, so that the pages' contracts can say which calls
 * happen, with what, and in which order.
 */
module Backend {
  import opened Wrappers
  import opened Files

  datatype User = User(id: string, email: string)
  datatype ServiceError = ServiceError(message: string)

  /** `auth.getUser()` answers `{ data: { user }, error }`. */
  datatype AuthResponse = AuthResponse(user: Option<User>, error: Option<ServiceError>)

  /** `createSignedUrl(...)` answers `{ data: { signedUrl } | null, error }`. */
  datatype SignedUrlResponse = SignedUrlResponse(signedUrl: Option<string>, error: Option<ServiceError>)

  /** A row as inserted into `audio_uploads` ... */
  datatype NewUpload = NewUpload(userId: string, filePath: string)

  /** ... and as read back from it. */
  datatype Upload = Upload(id: string, filePath: string, timestamp: string)

  /** A `select` answers `{ data, error }`, where `data` may be null. */
  datatype QueryResponse = QueryResponse(rows: Option<seq<Upload>>, error: Option<ServiceError>)

  /** A row of `profiles`. */
  datatype Profile = Profile(id: string, name: string, email: string, role: string)

  /** One call to the backend, with its arguments and the response it got. */
  datatype Call =
    | GetUserCall(auth: AuthResponse)
    | UploadObjectCall(bucket: string, path: string, file: File, upsert: bool, uploadError: Option<ServiceError>)
    | CreateSignedUrlCall(bucket: string, path: string, expiresIn: int, signed: SignedUrlResponse)
    | InsertUploadCall(table: string, newRow: NewUpload, insertError: Option<ServiceError>)
    | SelectUploadsCall(table: string, ownerId: string, orderColumn: string, ascending: bool, query: QueryResponse)
    | UpsertProfileCall(table: string, profile: Profile, upsertError: Option<ServiceError>)

  /** Calls that change what the backend stores. */
  predicate IsWrite(c: Call)
  {
    c.UploadObjectCall? || c.InsertUploadCall? || c.UpsertProfileCall?
  }

  const AudioBucket := "audio-files"
  const UploadsTable := "audio_uploads"
  const ProfilesTable := "profiles"

  /** Every signed URL is requested for `60 * 60` seconds. */
  const SignedUrlSeconds := 60 * 60

  /** The signed-in principal, when the response has one and no error. */
  function SignedInUser(a: AuthResponse): Option<User>
  {
    if a.error.Some? || a.user.None? then None else a.user
  }

  class Client {
    ghost var log: seq<Call>

    constructor ()
      ensures log == []
    {
      log := [];
    }

    /** `auth.getUser()`. */
    method GetUser() returns (r: AuthResponse)
      modifies this
      ensures log == old(log) + [GetUserCall(r)]
    {
      r := *;
      log := log + [GetUserCall(r)];
    }

    /** `storage.from(bucket).upload(path, file, { upsert })`. */
    method UploadObject(bucket: string, path: string, file: File, upsert: bool) returns (r: Option<ServiceError>)
      modifies this
      ensures log == old(log) + [UploadObjectCall(bucket, path, file, upsert, r)]
    {
      r := *;
      log := log + [UploadObjectCall(bucket, path, file, upsert, r)];
    }

    /** `storage.from(bucket).createSignedUrl(path, expiresIn)`. */
    method CreateSignedUrl(bucket: string, path: string, expiresIn: int) returns (r: SignedUrlResponse)
      modifies this
      ensures log == old(log) + [CreateSignedUrlCall(bucket, path, expiresIn, r)]
    {
      r := *;
      log := log + [CreateSignedUrlCall(bucket, path, expiresIn, r)];
    }

    /** `from(table).insert([row])`. */
    method InsertUpload(table: string, row: NewUpload) returns (r: Option<ServiceError>)
      modifies this
      ensures log == old(log) + [InsertUploadCall(table, row, r)]
    {
      r := *;
      log := log + [InsertUploadCall(table, row, r)];
    }

    /** `from(table).select('*').eq('user_id', ownerId).order(column, { ascending })`. */
    method SelectUploads(table: string, ownerId: string, orderColumn: string, ascending: bool) returns (r: QueryResponse)
      modifies this
      ensures log == old(log) + [SelectUploadsCall(table, ownerId, orderColumn, ascending, r)]
    {
      r := *;
      log := log + [SelectUploadsCall(table, ownerId, orderColumn, ascending, r)];
    }

    /** `from(table).upsert([profile])`. */
    method UpsertProfile(table: string, profile: Profile) returns (r: Option<ServiceError>)
      modifies this
      ensures log == old(log) + [UpsertProfileCall(table, profile, r)]
    {
      r := *;
      log := log + [UpsertProfileCall(table, profile, r)];
    }
  }
}
