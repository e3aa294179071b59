/** The image upload hook (hooks/useStorage.ts): the object name an upload
    gets, the two URLs of the storage service, and the `loading` flag
    around an upload. The clock is a parameter (`stamp`, the milliseconds
    as text); the request and its answer are values. */
module Storage {
  import opened Wrappers
  import opened Text

  /** `UploadOptions.bucket`. */
  datatype Bucket = Avatars | Banners

  function BucketName(b: Bucket): (r: string)
    ensures r == (if b == Avatars then "avatars" else "banners")
  {
    match b
    case Avatars => "avatars"
    case Banners => "banners"
  }

  /** `uri.split('.').pop()`: what follows the last point, or the whole uri
      when it has none. The result never holds a point. */
  function Extension(uri: string): (r: string)
    ensures LastIndexOf(uri, '.').None? ==> r == uri
    ensures LastIndexOf(uri, '.').Some? ==> r == uri[LastIndexOf(uri, '.').value + 1..]
    ensures LastIndexOf(r, '.').None?
  {
    var parts := Split(uri, '.');
    SplitPieceFree(uri, '.', |parts| - 1);
    if LastIndexOf(uri, '.').Some? then
      SplitLast(uri, '.');
      parts[|parts| - 1]
    else
      SplitWithoutSeparator(uri, '.');
      parts[|parts| - 1]
  }

  /** The object name: the user's folder, the time, and the extension of
      the picked file. */
  function FileName(userId: string, stamp: string, uri: string): (r: string)
    ensures |r| == |userId| + 1 + |stamp| + 1 + |Extension(uri)|
    ensures r[..|userId| + 1] == userId + "/"
  {
    var r := userId + "/" + stamp + "." + Extension(uri);
    assert r[..|userId| + 1] == userId + "/";
    r
  }

  /** The extension read back from the object name is that of the file:
      the user's id and the time cannot hide it, since the extension holds
      no point. */
  lemma FileNameKeepsExtension(userId: string, stamp: string, uri: string)
    ensures Extension(FileName(userId, stamp, uri)) == Extension(uri)
  {
    var front := userId + "/" + stamp;
    var ext := Extension(uri);
    assert FileName(userId, stamp, uri) == front + ['.'] + ext;
    LastAfterSeparator(front, ext, '.');
  }

  /** The object's path within the service: `bucket/fileName`. */
  function ObjectPath(bucket: Bucket, fileName: string): string {
    BucketName(bucket) + "/" + fileName
  }

  /** The address an upload is posted to. */
  function UploadUrl(base: string, bucket: Bucket, fileName: string): string {
    base + "/storage/v1/object/" + ObjectPath(bucket, fileName)
  }

  /** The address the uploaded image is served from. */
  function PublicUrl(base: string, bucket: Bucket, fileName: string): string {
    base + "/storage/v1/object/public/" + ObjectPath(bucket, fileName)
  }

  /** Both addresses end with the same object path; the public one is seven
      characters (`public/`) longer. */
  lemma UrlsNameSameObject(base: string, bucket: Bucket, fileName: string)
    ensures var path := ObjectPath(bucket, fileName);
      var up := UploadUrl(base, bucket, fileName);
      var pub := PublicUrl(base, bucket, fileName);
      && |pub| == |up| + 7
      && up[|up| - |path|..] == path
      && pub[|pub| - |path|..] == path
  {
    var path := ObjectPath(bucket, fileName);
    var up := UploadUrl(base, bucket, fileName);
    var pub := PublicUrl(base, bucket, fileName);
    assert up == (base + "/storage/v1/object/") + path;
    assert pub == (base + "/storage/v1/object/public/") + path;
  }

  /** Two uploads into the same bucket get the same public address exactly
      when they get the same object name. */
  lemma PublicUrlInjective(base: string, bucket: Bucket, f1: string, f2: string)
    ensures PublicUrl(base, bucket, f1) == PublicUrl(base, bucket, f2) <==> f1 == f2
  {
    var root := base + "/storage/v1/object/public/";
    var top := BucketName(bucket) + "/";
    if PublicUrl(base, bucket, f1) == PublicUrl(base, bucket, f2) {
      assert ObjectPath(bucket, f1) == PublicUrl(base, bucket, f1)[|root|..];
      assert ObjectPath(bucket, f2) == PublicUrl(base, bucket, f2)[|root|..];
      assert f1 == ObjectPath(bucket, f1)[|top|..];
      assert f2 == ObjectPath(bucket, f2)[|top|..];
    }
  }

  /** `file.mimeType ?? 'image/jpeg'`: only a missing type is replaced. */
  function MimeType(mimeType: Option<string>): (r: string)
    ensures mimeType.Some? ==> r == mimeType.value
    ensures mimeType.None? ==> r == "image/jpeg"
  {
    mimeType.GetOr("image/jpeg")
  }

  /** The picked image. */
  datatype Asset = Asset(uri: string, mimeType: Option<string>)

  /** The upload request: its address, the form's file part and the bearer
      token. */
  datatype Request = Request(url: string, fileName: string, uri: string, mimeType: string, token: string)

  /** The storage service's answer: its status and the message of its body. */
  datatype Reply = Reply(ok: bool, message: Option<string>)

  /** What `upload` returns. */
  datatype Outcome = Outcome(publicUrl: Option<string>, error: Option<Error>)

  const NotAuthenticated: string := "User not authenticated"
  const UploadFailed: string := "Failed to upload image."

  /** The hook's state. */
  class Uploader {
    var loading: bool

    constructor ()
      ensures !loading
    {
      loading := false;
    }

    /** `upload`. Without a user or a session nothing is sent and `loading`
        keeps its value. Otherwise one request is posted, `loading` is set
        for its duration and cleared after it whatever the outcome, and the
        answer is either the public address and no error, or an error and
        no address. `reply` is the answer to the request, or what was thrown
        while sending it or reading its body. */
    method Upload(userId: Option<string>, token: Option<string>, asset: Asset, bucket: Bucket,
                  base: string, stamp: string, reply: Result<Reply>)
      returns (request: Option<Request>, result: Outcome)
      modifies this
      ensures userId.None? || token.None? ==>
        request.None? && result == Outcome(None, Some(Error(NotAuthenticated))) && loading == old(loading)
      ensures userId.Some? && token.Some? ==> !loading
      ensures userId.Some? && token.Some? ==>
        var name := FileName(userId.value, stamp, asset.uri);
        request == Some(Request(UploadUrl(base, bucket, name), name, asset.uri, MimeType(asset.mimeType), token.value))
      ensures request.Some? && reply.Err? ==> result == Outcome(None, Some(reply.error))
      ensures request.Some? && reply.Ok? && !reply.value.ok ==>
        result == Outcome(None, Some(Error(Or(reply.value.message, UploadFailed))))
      ensures request.Some? && reply.Ok? && reply.value.ok ==>
        result == Outcome(Some(PublicUrl(base, bucket, request.value.fileName)), None)
      ensures result.publicUrl.Some? <==> result.error.None?
    {
      if userId.None? || token.None? {
        return None, Outcome(None, Some(Error(NotAuthenticated)));
      }
      loading := true;
      var name := FileName(userId.value, stamp, asset.uri);
      request := Some(Request(UploadUrl(base, bucket, name), name, asset.uri, MimeType(asset.mimeType), token.value));
      match reply {
        case Err(e) =>
          result := Outcome(None, Some(e));
        case Ok(answer) =>
          if !answer.ok {
            result := Outcome(None, Some(Error(Or(answer.message, UploadFailed))));
          } else {
            result := Outcome(Some(PublicUrl(base, bucket, name)), None);
          }
      }
      loading := false;
    }
  }
}
